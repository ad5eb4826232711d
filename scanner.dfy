/** The camera module's scanner panel (smart-kitchen-camera-module/components/Scanner.tsx):
    which photos it holds in each mode, and what a scan does with them. The photo type is a
    parameter; preprocessing, the three scan services and `JSON.stringify` are parameters. */
module Scanner {
  import opened Wrappers
  import opened Seqs
  import opened Js
  import opened ImageProcessing

  datatype ScanMode = Receipt | Fridge | Sales

  const MaxFridgePhotos := 5

  /** `prev.filter((_, i) => i !== index)`: the entry at `index` removed, if there is one. */
  function DropIndex<F>(s: seq<F>, index: int): (r: seq<F>)
    ensures 0 <= index < |s| ==> |r| == |s| - 1 && r[..index] == s[..index] && r[index..] == s[index + 1..]
    ensures !(0 <= index < |s|) ==> r == s
  {
    if 0 <= index < |s| then s[..index] + s[index + 1..] else s
  }

  /** The options the panel preprocesses with: at most 1500 wide, about 500 KB. */
  const ScanOptions := PreprocessOptions(Some(1500.0), None, None, None, Some(500.0))

  /** Only the width and the target are set; the rest keep their defaults. */
  lemma ScanOptionsResolve()
    ensures Resolve(ScanOptions) == Settings(1500.0, 1080.0, 0.85, true, 500.0)
  {
  }

  /** A photo one pixel wide and 3000 tall, preprocessed with the panel's options, is scaled
      to a width of 0, so the enhancement pass throws and its promise never settles. */
  lemma ThinPhotoNeverSettles()
    ensures var s := Resolve(ScanOptions);
      var size := ScaledSize(1, 3000, s.maxWidth, s.maxHeight);
      size == Size(0, 1080) && EnhanceThrows(s, size)
  {
    ScanOptionsResolve();
    assert Ratio(1, 3000, 1500.0, 1080.0) == 0.36;
    assert (0.36 + 0.5).Floor == 0;
    assert (1080.0 + 0.5).Floor == 1080;
  }

  /** How `Promise.all` over the preprocessed photos ends. */
  datatype Gathered = AllResolved(images: seq<ProcessedImage>) | FirstRejected(message: string) | NeverSettles

  /** `Promise.all`: it rejects when any promise rejects (taken here in input order), never
      settles when none rejects but one never settles, and otherwise resolves with every
      value in order. */
  function PromiseAll(s: seq<Settled>): (r: Gathered)
    ensures r.FirstRejected? <==> exists i :: 0 <= i < |s| && s[i].Rejected?
    ensures r.FirstRejected? ==> exists i :: 0 <= i < |s| && s[i] == Rejected(r.message) && forall j :: 0 <= j < i ==> !s[j].Rejected?
    ensures r.NeverSettles? <==> (forall i :: 0 <= i < |s| ==> !s[i].Rejected?) && exists i :: 0 <= i < |s| && s[i].Pending?
    ensures r.AllResolved? ==> |r.images| == |s| && forall i :: 0 <= i < |s| ==> s[i] == Resolved(r.images[i])
    decreases |s|
  {
    if s == [] then AllResolved([])
    else
      var rest := PromiseAll(s[1..]);
      assert forall i :: 0 < i < |s| ==> s[i] == s[1..][i - 1];
      match s[0]
      case Rejected(m) => FirstRejected(m)
      case Pending => if rest.FirstRejected? then rest else NeverSettles
      case Resolved(img) => if rest.AllResolved? then AllResolved([img] + rest.images) else rest
  }

  /** An image handed to a scan service: the payload (undefined when the encoder's text had no
      comma) and the fixed JPEG type. */
  datatype ScanImage = ScanImage(base64: Option<string>, mimeType: string)

  const Jpeg := "image/jpeg"

  function ToScanImage(p: ProcessedImage): ScanImage {
    ScanImage(p.base64, Jpeg)
  }

  /** `e.message || "Scan failed"`. */
  function ScanError(message: string): (r: string)
    ensures r != ""
    ensures message != "" ==> r == message
  {
    if message == "" then "Scan failed" else message
  }

  const NoResult := "No result returned from AI"

  /** The scan services, one per mode; receipt and sales read one image. */
  datatype Services = Services(
    fridgeAudit: seq<ScanImage> -> Outcome<Json>,
    invoice: ScanImage -> Outcome<Json>,
    posReceipt: ScanImage -> Outcome<Json>)

  /** The call `runScan` makes for a mode, given the processed images. */
  function CallService(mode: ScanMode, images: seq<ScanImage>, services: Services): Outcome<Json>
    requires images != []
  {
    match mode
    case Fridge => services.fridgeAudit(images)
    case Receipt => services.invoice(images[0])
    case Sales => services.posReceipt(images[0])
  }

  /** The panel state. */
  class ScannerPanel<F> {
    var mode: ScanMode
    var files: seq<F>
    var analyzing: bool
    var error: string
    var rawOutput: string

    /** Fridge mode holds at most five photos, the other modes at most one. */
    predicate Valid()
      reads this
    {
      |files| <= MaxFridgePhotos && (mode != Fridge ==> |files| <= 1)
    }

    constructor (initialMode: ScanMode)
      ensures Valid()
      ensures mode == initialMode && files == [] && !analyzing && error == "" && rawOutput == ""
    {
      mode := initialMode;
      files := [];
      analyzing := false;
      error := "";
      rawOutput := "";
    }

    /** `handleAddFile`: no pick does nothing; in fridge mode a pick is appended unless five
        photos are held already; in the other modes it replaces the photos. */
    method AddFile(picked: Option<F>)
      requires Valid()
      modifies this
      ensures Valid()
      ensures picked.None? ==> files == old(files) && error == old(error)
      ensures picked.Some? && mode == Fridge && |old(files)| >= MaxFridgePhotos ==> files == old(files) && error == old(error)
      ensures picked.Some? && mode == Fridge && |old(files)| < MaxFridgePhotos ==> files == old(files) + [picked.value] && error == ""
      ensures picked.Some? && mode != Fridge ==> files == [picked.value] && error == ""
      ensures mode == old(mode) && analyzing == old(analyzing) && rawOutput == old(rawOutput)
    {
      if picked.None? {
        return;
      }
      if mode == Fridge {
        if |files| >= MaxFridgePhotos {
          return;
        }
        files := files + [picked.value];
      } else {
        files := [picked.value];
      }
      error := "";
    }

    /** `removeFile(index)`. */
    method RemoveFile(index: int)
      requires Valid()
      modifies this
      ensures Valid()
      ensures files == DropIndex(old(files), index)
      ensures mode == old(mode) && error == old(error) && analyzing == old(analyzing) && rawOutput == old(rawOutput)
    {
      files := DropIndex(files, index);
    }

    /** A mode tab: the photos, raw output and error are cleared. */
    method SelectMode(m: ScanMode)
      requires Valid()
      modifies this
      ensures Valid()
      ensures mode == m && files == [] && rawOutput == "" && error == "" && analyzing == old(analyzing)
    {
      mode := m;
      files := [];
      rawOutput := "";
      error := "";
    }

    /** `runScan`: nothing without photos; otherwise every photo is preprocessed with the
        panel's options, the mode's service is called, and a truthy result is shown and
        returned; a falsy result or any failure shows an error. When a photo's preprocessing
        never settles and none rejects, the `await` never returns: the panel stays analysing
        and nothing after it runs. */
    method RunScan(preprocess: (F, PreprocessOptions) -> Settled, services: Services, stringify: Json -> string)
      returns (completed: Option<Json>)
      requires Valid()
      modifies this
      ensures Valid()
      ensures old(files) == [] ==> completed == None && error == old(error) && rawOutput == old(rawOutput) && analyzing == old(analyzing)
      ensures old(files) != [] ==>
        var gathered := PromiseAll(Map(old(files), (f: F) => preprocess(f, ScanOptions)));
        && (analyzing <==> gathered.NeverSettles?)
        && (gathered.NeverSettles? ==> completed == None && error == "" && rawOutput == "")
        && (gathered.FirstRejected? ==> completed == None && error == ScanError(gathered.message) && rawOutput == "")
        && (gathered.AllResolved? ==>
              var outcome := CallService(mode, Map(gathered.images, ToScanImage), services);
              && (outcome.Thrown? ==> completed == None && error == ScanError(outcome.message) && rawOutput == "")
              && (outcome.Ok? && !Truthy(Some(outcome.value)) ==> completed == None && error == NoResult && rawOutput == "")
              && (outcome.Ok? && Truthy(Some(outcome.value)) ==> completed == Some(outcome.value) && error == "" && rawOutput == stringify(outcome.value)))
      ensures files == old(files) && mode == old(mode)
    {
      completed := None;
      if |files| == 0 {
        return;
      }
      analyzing := true;
      error := "";
      rawOutput := "";
      var gathered := PromiseAll(Map(files, (f: F) => preprocess(f, ScanOptions)));
      if gathered.NeverSettles? {
        return;
      }
      if gathered.FirstRejected? {
        error := ScanError(gathered.message);
      } else {
        var images := Map(gathered.images, ToScanImage);
        var outcome := CallService(mode, images, services);
        if outcome.Thrown? {
          error := ScanError(outcome.message);
        } else if !Truthy(Some(outcome.value)) {
          error := ScanError(NoResult);
        } else {
          rawOutput := stringify(outcome.value);
          completed := Some(outcome.value);
        }
      }
      analyzing := false;
    }
  }

  /** In receipt and sales mode only the first photo reaches the service: the others do not
      change the call. */
  lemma SingleImageModes(mode: ScanMode, images: seq<ScanImage>, more: seq<ScanImage>, services: Services)
    requires mode != Fridge && images != []
    ensures CallService(mode, images + more, services) == CallService(mode, [images[0]], services)
  {
  }
}
