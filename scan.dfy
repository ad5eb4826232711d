/** The scan page (src/pages/Scan.tsx): at most five photos are selected, each is read as a
    data URL and split into MIME type and base64 payload, and the scan result is tagged with
    the chosen storage place before it is handed to the results page. Reading a file and the
    scan service are parameters. */
module Scan {
  import opened Wrappers
  import opened Seqs
  import opened Kitchen
  import opened Js
  import opened ScanResults

  // ---------------------------------------------------------------- fileToBase64

  /** The characters `.` does not match in a JavaScript regular expression. */
  predicate IsLineTerminator(c: char) {
    c == '\n' || c == '\r' || c == '\U{2028}' || c == '\U{2029}'
  }

  const DataPrefix := "data:"
  const Base64Marker := ";base64,"

  /** `data:<mime>;base64,<payload>` (section 3 of RFC 2397, base64 form). */
  function DataUrl(mime: string, payload: string): string {
    DataPrefix + mime + Base64Marker + payload
  }

  /** What `/^data:([^;]+);base64,(.+)$/` accepts: a non-empty MIME type without ';' and a
      non-empty payload without line terminators. */
  predicate WellFormed(mime: string, payload: string) {
    mime != [] && ';' !in mime && payload != [] && forall i :: 0 <= i < |payload| ==> !IsLineTerminator(payload[i])
  }

  /** The match in `fileToBase64`: `None` when the pattern does not match. The MIME type runs
      to the first ';', which must start ";base64,"; the payload is the rest. */
  function ParseDataUrl(s: string): (r: Option<ImageData>)
  {
    if |s| < |DataPrefix| || s[..|DataPrefix|] != DataPrefix then None
    else
      var rest := s[|DataPrefix|..];
      if ';' !in rest then None
      else
        var k := FirstIndex(rest, ';');
        var tail := rest[k..];
        if |tail| < |Base64Marker| || tail[..|Base64Marker|] != Base64Marker then None
        else if WellFormed(rest[..k], tail[|Base64Marker|..]) then Some(ImageData(tail[|Base64Marker|..], rest[..k]))
        else None
  }

  /** A well-formed data URL splits back into its MIME type and payload. */
  lemma ParseDataUrlRoundTrip(mime: string, payload: string)
    requires WellFormed(mime, payload)
    ensures ParseDataUrl(DataUrl(mime, payload)) == Some(ImageData(payload, mime))
  {
    var s := DataUrl(mime, payload);
    var rest := mime + Base64Marker + payload;
    assert s[..|DataPrefix|] == DataPrefix && s[|DataPrefix|..] == rest;
    assert rest[..|mime|] == mime && rest[|mime|..] == Base64Marker + payload;
    assert FirstIndex(rest, ';') == |mime| by {
      assert rest[|mime|] == ';';
    }
    var tail := rest[|mime|..];
    assert tail[..|Base64Marker|] == Base64Marker && tail[|Base64Marker|..] == payload;
  }

  /** Whatever is accepted is exactly the data URL of its parts, and its parts are well formed. */
  lemma ParseDataUrlSound(s: string)
    requires ParseDataUrl(s).Some?
    ensures WellFormed(ParseDataUrl(s).value.mimeType, ParseDataUrl(s).value.base64)
    ensures s == DataUrl(ParseDataUrl(s).value.mimeType, ParseDataUrl(s).value.base64)
  {
    var rest := s[|DataPrefix|..];
    var k := FirstIndex(rest, ';');
    var tail := rest[k..];
    assert ParseDataUrl(s) == Some(ImageData(tail[|Base64Marker|..], rest[..k]));
    DataUrlParts(s, k);
  }

  /** Text that starts with the prefix and has the marker at `k` past it is the data URL of
      the text before the marker and the text after it. */
  lemma DataUrlParts(s: string, k: nat)
    requires |DataPrefix| + k + |Base64Marker| <= |s|
    requires s[..|DataPrefix|] == DataPrefix
    requires s[|DataPrefix|..][k..][..|Base64Marker|] == Base64Marker
    ensures s == DataUrl(s[|DataPrefix|..][..k], s[|DataPrefix|..][k..][|Base64Marker|..])
  {
    var rest := s[|DataPrefix|..];
    var tail := rest[k..];
    assert tail == tail[..|Base64Marker|] + tail[|Base64Marker|..];
    assert rest == rest[..k] + tail;
    assert s == s[..|DataPrefix|] + rest;
  }

  /** A photo as the reader delivers it: its data URL, or the reader's error. */
  type PhotoFile = Outcome<string>

  /** `fileToBase64(file)`. */
  function FileToBase64(f: PhotoFile): (r: Outcome<ImageData>)
    ensures f.Thrown? ==> r == Thrown(f.message)
    ensures f.Ok? && ParseDataUrl(f.value).None? ==> r == Thrown("parse")
    ensures f.Ok? && ParseDataUrl(f.value).Some? ==> r == Ok(ParseDataUrl(f.value).value)
  {
    match f
    case Thrown(m) => Thrown(m)
    case Ok(url) => if ParseDataUrl(url).Some? then Ok(ParseDataUrl(url).value) else Thrown("parse")
  }

  // ---------------------------------------------------------------- handleScan

  const MaxPhotos := 5
  const NoPhotos := "请先选择 1～5 张照片"
  const NothingFound := "未识别到食材，请重试或换几张照片"

  function LocationName(loc: Location): string {
    match loc
    case Fridge => "fridge"
    case Freezer => "freezer"
    case Pantry => "pantry"
  }

  /** The result handed to the results page: every item tagged with the chosen place, and the
      scan quality defaulting to 'medium'. */
  function WithLocation(r: FridgeSnapshot, loc: Location): (w: FridgeSnapshot)
    ensures |w.items| == |r.items|
    ensures forall k :: 0 <= k < |r.items| ==> w.items[k] == r.items[k].(storageLocation := Some(LocationName(loc)))
    ensures w.scanQuality == Some(r.scanQuality.GetOr("medium"))
  {
    FridgeSnapshot(Map(r.items, (i: FreshItem) => i.(storageLocation := Some(LocationName(loc)))), Some(r.scanQuality.GetOr("medium")))
  }

  /** The results page saves a tagged result at the place chosen on this page. */
  lemma SavedWhereChosen(r: FridgeSnapshot, loc: Location)
    requires r.items != []
    ensures StoredLocation(WithLocation(r, loc).items) == loc
  {
    var w := WithLocation(r, loc);
    assert w.items[0].storageLocation == Some(LocationName(loc));
    match loc
    case Fridge =>
      assert LocationName(loc) == "fridge";
      assert LocationName(loc)[0] == 'f' && LocationName(loc)[1] == 'r';
    case Freezer =>
      assert LocationName(loc) == "freezer";
    case Pantry =>
      assert LocationName(loc) == "pantry";
  }

  /** The page state; `files` are the selected photos. */
  class ScanPage {
    var files: seq<PhotoFile>
    var storageLocation: Location
    var loading: bool
    var error: string

    constructor ()
      ensures files == [] && storageLocation == Fridge && !loading && error == ""
    {
      files := [];
      storageLocation := Fridge;
      loading := false;
      error := "";
    }

    /** `onSelect`: an empty selection changes nothing; otherwise the first five photos
        replace the selection and the error is cleared. */
    method OnSelect(selection: seq<PhotoFile>)
      modifies this
      ensures selection == [] ==> files == old(files) && error == old(error)
      ensures selection != [] ==> files == Take(selection, MaxPhotos) && error == ""
      ensures |files| <= MaxPhotos || files == old(files)
      ensures storageLocation == old(storageLocation) && loading == old(loading)
    {
      if |selection| == 0 {
        return;
      }
      files := Take(selection, MaxPhotos);
      error := "";
    }

    /** The storage place buttons. */
    method SelectLocation(loc: Location)
      modifies this
      ensures storageLocation == loc && files == old(files) && error == old(error) && loading == old(loading)
    {
      storageLocation := loc;
    }

    /** `handleScan`: with no photos only an error; otherwise read every photo, scan them, and
        navigate with the tagged result, or show why not. The photos are read in order and the
        first failure is reported. `scan(images)` is the scan service,
        `None` standing for a null result. */
    method HandleScan(scan: seq<ImageData> -> Outcome<Option<FridgeSnapshot>>)
      returns (navigatedWith: Option<FridgeSnapshot>)
      modifies this
      ensures old(files) == [] ==> error == NoPhotos && navigatedWith == None
      ensures old(files) != [] && MapOk(old(files), FileToBase64).Thrown? ==> error == MapOk(old(files), FileToBase64).message && navigatedWith == None
      ensures old(files) != [] && MapOk(old(files), FileToBase64).Ok? ==>
        var outcome := scan(MapOk(old(files), FileToBase64).value);
        && (outcome.Thrown? ==> error == outcome.message && navigatedWith == None)
        && (outcome.Ok? && (outcome.value.None? || outcome.value.value.items == []) ==> error == NothingFound && navigatedWith == None)
        && (outcome.Ok? && outcome.value.Some? && outcome.value.value.items != [] ==>
              error == "" && navigatedWith == Some(WithLocation(outcome.value.value, storageLocation)))
      ensures (if old(files) == [] then loading == old(loading) else !loading) && files == old(files) && storageLocation == old(storageLocation)
    {
      navigatedWith := None;
      if |files| == 0 {
        error := NoPhotos;
        return;
      }
      loading := true;
      error := "";
      var images := MapOk(files, FileToBase64);
      if images.Thrown? {
        error := images.message;
      } else {
        var outcome := scan(images.value);
        if outcome.Thrown? {
          error := outcome.message;
        } else if outcome.value.None? || outcome.value.value.items == [] {
          error := NothingFound;
        } else {
          navigatedWith := Some(WithLocation(outcome.value.value, storageLocation));
        }
      }
      loading := false;
    }
  }
}
