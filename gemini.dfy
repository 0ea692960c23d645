/**
 * The local logic of the analysis service (services/geminiService.ts): MIME
 * type resolution, the checks and the base64 split done per file, the
 * all-or-nothing conversion of the batch, the response check and the
 * rewriting of errors. The remote model call and `JSON.parse` are not
 * modelled: their outcome is a parameter.
 */
module Gemini {
  import opened Wrappers
  import opened Types

  /** A value thrown on the way: an `Error` with its message, or anything else. */
  datatype Thrown = ErrorValue(message: string) | OtherValue

  /** How `FileReader.readAsDataURL` ended: with a result string, or with an error event. */
  datatype ReadOutcome = Loaded(result: string) | ReadFailed

  /** One inline part of the request: the base64 payload and its MIME type. */
  datatype Part = Part(data: string, mimeType: string)

  /**
   * What the remote call gave: a response whose text `JSON.parse` turned into
   * `json` (a result or a thrown parse error), or a thrown error.
   */
  datatype RemoteOutcome = Responded(text: string, json: Result<AnalysisResult, Thrown>) | Threw(error: Thrown)

  const OctetStream: string := "application/octet-stream"
  const DefaultMimeType: string := "application/pdf"
  const NoResponseMessage: string := "No response from AI"
  /** Spelled in pieces so that the verifier can see which characters it holds. */
  const UnreadablePdfMessage: string :=
    "Cannot read " + "PDF file. " + "Please ensure " + "the file is " + "not corrupted " + "or password " + "protected."

  /** `s.split(sep).pop()`: the longest suffix of `s` that holds no separator. */
  function LastSegment(s: string, sep: char): (r: string)
    ensures sep !in r
    ensures |r| <= |s| && r == s[|s| - |r|..]
    ensures |r| < |s| ==> s[|s| - |r| - 1] == sep
  {
    if s == [] then []
    else if s[|s| - 1] == sep then []
    else
      var init := s[..|s| - 1];
      var r := LastSegment(init, sep) + [s[|s| - 1]];
      assert r == s[|s| - |r|..] by {
        assert init[|init| - |LastSegment(init, sep)|..] + [s[|s| - 1]] == s[|s| - |r|..];
      }
      r
  }

  /** The segment after the last separator is read back whole: the round trip of `prefix + "." + ext`. */
  lemma {:induction false} LastSegmentAfter(prefix: string, sep: char, ext: string)
    requires sep !in ext
    ensures LastSegment(prefix + [sep] + ext, sep) == ext
  {
    if ext == [] {
    } else {
      var init := ext[..|ext| - 1];
      assert (prefix + [sep] + ext)[..|prefix + [sep] + ext| - 1] == prefix + [sep] + init;
      LastSegmentAfter(prefix, sep, init);
      assert init + [ext[|ext| - 1]] == ext;
    }
  }

  /** A name without separator is its own last segment. */
  lemma LastSegmentWhole(s: string, sep: char)
    requires sep !in s
    ensures LastSegment(s, sep) == s
  {
  }

  function LowerChar(c: char): char {
    if 'A' <= c <= 'Z' then (c as int + 32) as char else c
  }

  /** `toLowerCase`, on ASCII letters. */
  function ToLower(s: string): (r: string)
    ensures |r| == |s|
    ensures forall i :: 0 <= i < |s| ==> r[i] == LowerChar(s[i])
  {
    seq(|s|, i requires 0 <= i < |s| => LowerChar(s[i]))
  }

  /** The extension table of `getMimeType`. */
  function MimeForExtension(ext: string): (r: Option<string>)
    ensures r.Some? ==> r.value != []
  {
    if ext == "pdf" then Some("application/pdf")
    else if ext == "jpg" || ext == "jpeg" then Some("image/jpeg")
    else if ext == "png" then Some("image/png")
    else if ext == "webp" then Some("image/webp")
    else if ext == "heic" then Some("image/heic")
    else if ext == "heif" then Some("image/heif")
    else None
  }

  /**
   * `getMimeType`: a stored type other than the empty string and the generic
   * octet-stream is kept; otherwise the lower-cased last dot-segment of the
   * name is looked up, and an unknown one falls back to the stored type when
   * that is non-empty, to PDF when it is empty. The result is never empty.
   */
  function GetMimeType(fileName: string, stored: string): (r: string)
    ensures stored != [] && stored != OctetStream ==> r == stored
    ensures stored == [] || stored == OctetStream ==>
      r == MimeForExtension(ToLower(LastSegment(fileName, '.'))).GetOr(if stored == [] then DefaultMimeType else stored)
    ensures r != []
  {
    if stored != [] && stored != OctetStream then stored
    else
      match MimeForExtension(ToLower(LastSegment(fileName, '.')))
      case Some(m) => m
      case None => if stored != [] then stored else DefaultMimeType
  }

  /** The lookup goes by the last extension, whatever its letter case. */
  lemma MimeByExtension(base: string, ext: string, stored: string)
    requires '.' !in ext
    requires stored == [] || stored == OctetStream
    ensures GetMimeType(base + "." + ext, stored) ==
              MimeForExtension(ToLower(ext)).GetOr(if stored == [] then DefaultMimeType else stored)
  {
    LastSegmentAfter(base, '.', ext);
  }

  /** An upper-case extension resolves like a lower-case one. */
  lemma MimeUpperCaseExample()
    ensures GetMimeType("SCAN.PDF", "") == "application/pdf"
  {
    var ext := "PDF";
    assert '.' !in ext by {
      assert forall i | 0 <= i < |ext| :: 'A' <= ext[i] <= 'Z';
    }
    assert "SCAN" + "." + ext == "SCAN.PDF";
    LastSegmentAfter("SCAN", '.', ext);
    var lower := ToLower(ext);
    assert lower == "pdf" by {
      assert lower[0] == 'p' && lower[1] == 'd' && lower[2] == 'f';
    }
  }

  /** Only the last dot-segment counts, and an octet-stream type is refined. */
  lemma MimeLastSegmentExample()
    ensures GetMimeType("photo.final.JPEG", OctetStream) == "image/jpeg"
  {
    var ext := "JPEG";
    assert '.' !in ext by {
      assert forall i | 0 <= i < |ext| :: 'A' <= ext[i] <= 'Z';
    }
    assert "photo.final" + "." + ext == "photo.final.JPEG";
    LastSegmentAfter("photo.final", '.', ext);
    var lower := ToLower(ext);
    assert lower == "jpeg" by {
      assert lower[0] == 'j' && lower[1] == 'p' && lower[2] == 'e' && lower[3] == 'g';
    }
  }

  /** A name without a dot is looked up whole. */
  lemma MimeByWholeName(name: string, stored: string)
    requires '.' !in name
    requires stored == [] || stored == OctetStream
    ensures GetMimeType(name, stored) ==
              MimeForExtension(ToLower(name)).GetOr(if stored == [] then DefaultMimeType else stored)
  {
    LastSegmentWhole(name, '.');
  }

  /** A name without a dot is its own extension: a file named "png" is a PNG. */
  lemma MimeDotlessExample()
    ensures GetMimeType("png", "") == "image/png"
  {
    var name := "png";
    assert '.' !in name by {
      assert forall i | 0 <= i < |name| :: 'a' <= name[i] <= 'z';
    }
    MimeByWholeName(name, "");
    var lower := ToLower(name);
    assert lower == "png" by {
      assert lower[0] == 'p' && lower[1] == 'n' && lower[2] == 'g';
    }
    assert MimeForExtension(lower) == Some("image/png");
  }

  /** An unknown extension keeps a stored octet-stream type, and gives PDF when nothing was stored. */
  lemma MimeUnknownExtension(base: string, ext: string)
    requires '.' !in ext
    requires MimeForExtension(ToLower(ext)).None?
    ensures GetMimeType(base + "." + ext, OctetStream) == OctetStream
    ensures GetMimeType(base + "." + ext, "") == DefaultMimeType
  {
    MimeByExtension(base, ext, OctetStream);
    MimeByExtension(base, ext, "");
  }

  /** `s.split(sep)`: the pieces between separators, at least one. */
  function Split(s: string, sep: char): (r: seq<string>)
    ensures |r| >= 1
    ensures forall k :: 0 <= k < |r| ==> sep !in r[k]
    ensures Join(r, sep) == s
    ensures |r| >= 2 <==> sep in s
  {
    if s == [] then [[]]
    else
      var rest := Split(s[1..], sep);
      if s[0] == sep then
        assert s == [sep] + s[1..];
        [[]] + rest
      else
        var r := [[s[0]] + rest[0]] + rest[1..];
        assert r[1..] == rest[1..];
        assert s == [s[0]] + s[1..];
        r
  }

  /** `parts.join(sep)`. */
  function Join(parts: seq<string>, sep: char): string
    requires |parts| >= 1
  {
    if |parts| == 1 then parts[0] else parts[0] + [sep] + Join(parts[1..], sep)
  }

  /**
   * `result.includes(',') ? result.split(',')[1] : result`: the text between
   * the first comma and the next one (or the end), or the whole text when it
   * holds no comma.
   */
  function ExtractBase64(result: string): (r: string)
    ensures ',' !in result ==> r == result
    ensures ',' in result ==> ',' !in r && |r| < |result|
    ensures ',' in result ==> exists h, t :: SecondField(result, h, r, t)
  {
    if ',' in result then
      SplitSecondField(result);
      Split(result, ',')[1]
    else result
  }

  /** `s` is `h,r` followed by nothing or by another comma and the rest, with no comma in `h` or `r`. */
  predicate SecondField(s: string, h: string, r: string, t: string) {
    ',' !in h && ',' !in r && s == h + [','] + r + t && (t == [] || t[0] == ',')
  }

  /** The second piece of a split at commas lies between the first comma and the next one. */
  lemma SplitSecondField(s: string)
    requires ',' in s
    ensures |Split(s, ',')| >= 2
    ensures exists t :: SecondField(s, Split(s, ',')[0], Split(s, ',')[1], t)
  {
    var parts := Split(s, ',');
    JoinFirstTwo(parts, ',');
    assert ',' !in parts[0] && ',' !in parts[1];
    assert SecondField(s, parts[0], parts[1], JoinRest(parts, ','));
  }

  /** What follows the second piece in a join: nothing, or the separator and the remaining pieces. */
  function JoinRest(parts: seq<string>, sep: char): (t: string)
    requires |parts| >= 2
    ensures t == [] || t[0] == sep
  {
    if |parts| == 2 then [] else [sep] + Join(parts[2..], sep)
  }

  lemma JoinFirstTwo(parts: seq<string>, sep: char)
    requires |parts| >= 2
    ensures Join(parts, sep) == parts[0] + [sep] + parts[1] + JoinRest(parts, sep)
  {
    if |parts| > 2 {
      assert parts[1..][1..] == parts[2..];
    }
  }

  /** Splitting a joined list gives the list back, when no piece holds the separator. */
  lemma {:induction false} SplitJoin(parts: seq<string>, sep: char)
    requires |parts| >= 1
    requires forall k :: 0 <= k < |parts| ==> sep !in parts[k]
    ensures Split(Join(parts, sep), sep) == parts
    decreases |Join(parts, sep)|, |parts[0]|
  {
    var s := Join(parts, sep);
    if parts[0] == [] {
      if |parts| == 1 {
      } else {
        assert s == [sep] + Join(parts[1..], sep);
        assert s[1..] == Join(parts[1..], sep);
        SplitJoin(parts[1..], sep);
      }
    } else {
      var shorter := [parts[0][1..]] + parts[1..];
      assert shorter[1..] == parts[1..];
      assert s[0] == parts[0][0];
      assert s[1..] == Join(shorter, sep) by {
        if |parts| == 1 {
        } else {
          assert s == parts[0] + [sep] + Join(parts[1..], sep);
          assert s[1..] == parts[0][1..] + [sep] + Join(parts[1..], sep);
        }
      }
      assert |Join(shorter, sep)| < |s|;
      SplitJoin(shorter, sep);
      assert [parts[0][0]] + parts[0][1..] == parts[0];
    }
  }

  /** A data URL "header,payload" gives back its payload. */
  lemma ExtractFromDataUrl(header: string, payload: string)
    requires ',' !in header && ',' !in payload
    ensures ExtractBase64(header + "," + payload) == payload
  {
    SplitJoin([header, payload], ',');
    assert Join([payload], ',') == payload;
    assert Join([header, payload], ',') == header + "," + payload;
  }

  /**
   * `fileToPart`: a zero-byte file is rejected before it is read; a read that
   * fails or yields nothing is rejected; otherwise the payload is split out of
   * the data URL and the MIME type resolved.
   * An error event is delivered before `loadend`, so a failed read rejects with
   * the "Error reading" message.
   */
  function FileToPart(f: UploadedFile, read: ReadOutcome): (r: Result<Part, Thrown>)
    ensures f.file.size == 0 ==> r == Failure(ErrorValue("File " + f.file.name + " is empty (0 bytes)."))
    ensures r.Success? <==> f.file.size > 0 && read.Loaded? && read.result != []
    ensures r.Success? ==>
      r.value == Part(ExtractBase64(read.result), GetMimeType(f.file.name, f.mimeType)) && r.value.mimeType != []
  {
    if f.file.size == 0 then Failure(ErrorValue("File " + f.file.name + " is empty (0 bytes)."))
    else match read
      case ReadFailed => Failure(ErrorValue("Error reading file " + f.file.name))
      case Loaded(result) =>
        if result == [] then Failure(ErrorValue("Failed to read file " + f.file.name))
        else Success(Part(ExtractBase64(result), GetMimeType(f.file.name, f.mimeType)))
  }

  /**
   * `Promise.all` over the conversions: every part, in file order, or the
   * error of a failing file (here the first in list order).
   */
  function ConvertAll(files: seq<UploadedFile>, readOf: UploadedFile -> ReadOutcome): (r: Result<seq<Part>, Thrown>)
    ensures r.Success? <==> forall i :: 0 <= i < |files| ==> FileToPart(files[i], readOf(files[i])).Success?
    ensures r.Success? ==> (|r.value| == |files| &&
      forall i :: 0 <= i < |files| ==> r.value[i] == FileToPart(files[i], readOf(files[i])).value)
    ensures r.Failure? ==>
      (exists i :: 0 <= i < |files| && FileToPart(files[i], readOf(files[i])) == Failure(r.error))
  {
    if files == [] then Success([])
    else
      var first := FileToPart(files[0], readOf(files[0]));
      if first.Failure? then Failure(first.error)
      else
        var rest := ConvertAll(files[1..], readOf);
        if rest.Failure? then Failure(rest.error)
        else Success([first.value] + rest.value)
  }

  /** `sub` occurs in `s` starting at position `i`. */
  predicate OccursAt(s: string, sub: string, i: int) {
    0 <= i && i + |sub| <= |s| && s[i..i + |sub|] == sub
  }

  /** `s.includes(sub)`: `sub` occurs in `s` at some position. */
  function Contains(s: string, sub: string): (b: bool)
    ensures b <==> exists i :: OccursAt(s, sub, i)
  {
    if sub <= s then
      assert OccursAt(s, sub, 0);
      true
    else if s == [] then false
    else
      var b := Contains(s[1..], sub);
      assert forall i :: OccursAt(s[1..], sub, i) <==> OccursAt(s, sub, i + 1);
      assert !OccursAt(s, sub, 0);
      assert forall i :: OccursAt(s, sub, i) ==> OccursAt(s[1..], sub, i - 1);
      b
  }

  /** The catch block: an `Error` whose message mentions "no pages" becomes the unreadable-PDF error; anything else is rethrown as it is. */
  function MapError(e: Thrown): (r: Thrown)
    ensures e.ErrorValue? && Contains(e.message, "no pages") ==> r == ErrorValue(UnreadablePdfMessage)
    ensures !(e.ErrorValue? && Contains(e.message, "no pages")) ==> r == e
  {
    if e.ErrorValue? && Contains(e.message, "no pages") then ErrorValue(UnreadablePdfMessage) else e
  }

  /**
   * `analyzeDocuments`: convert every file, then call the model; an empty
   * response text fails with "No response from AI"; every failure on the way
   * passes through the error rewrite.
   */
  function AnalyzeDocuments(files: seq<UploadedFile>, readOf: UploadedFile -> ReadOutcome,
                            remote: RemoteOutcome): (r: Result<AnalysisResult, Thrown>)
    ensures ConvertAll(files, readOf).Failure? ==> r == Failure(MapError(ConvertAll(files, readOf).error))
    ensures r.Success? <==>
      ConvertAll(files, readOf).Success? && remote.Responded? && remote.text != [] && remote.json.Success?
    ensures r.Success? ==> r == remote.json
    ensures ConvertAll(files, readOf).Success? && remote.Threw? ==> r == Failure(MapError(remote.error))
    ensures ConvertAll(files, readOf).Success? && remote.Responded? && remote.text == [] ==>
      r == Failure(ErrorValue(NoResponseMessage))
    ensures ConvertAll(files, readOf).Success? && remote.Responded? && remote.text != [] && remote.json.Failure? ==>
      r == Failure(MapError(remote.json.error))
  {
    match ConvertAll(files, readOf)
    case Failure(e) => Failure(MapError(e))
    case Success(parts) =>
      match remote
      case Threw(e) => Failure(MapError(e))
      case Responded(text, json) =>
        if text == [] then
          NoPagesNotInNoResponse();
          Failure(MapError(ErrorValue(NoResponseMessage)))
        else match json
          case Success(result) => Success(result)
          case Failure(e) => Failure(MapError(e))
  }

  /** One file that cannot be converted fails the whole analysis, whatever the model would have said. */
  lemma OneBadFileFailsAll(files: seq<UploadedFile>, readOf: UploadedFile -> ReadOutcome,
                           remote: RemoteOutcome, i: nat)
    requires i < |files|
    requires FileToPart(files[i], readOf(files[i])).Failure?
    ensures AnalyzeDocuments(files, readOf, remote).Failure?
    ensures forall other: RemoteOutcome :: AnalyzeDocuments(files, readOf, other) == AnalyzeDocuments(files, readOf, remote)
  {
  }

  /** The rewritten message does not itself mention "no pages", so the rewrite is idempotent. */
  lemma MapErrorIdempotent(e: Thrown)
    ensures MapError(MapError(e)) == MapError(e)
  {
    if e.ErrorValue? && Contains(e.message, "no pages") {
      NoPagesNotInRewrite();
    }
  }

  /** A string holds every character of every string it contains. */
  lemma {:induction false} ContainsChars(s: string, sub: string, c: char)
    requires Contains(s, sub) && c in sub
    ensures c in s
  {
    if sub <= s {
      var k :| 0 <= k < |sub| && sub[k] == c;
      assert s[k] == c;
    } else {
      ContainsChars(s[1..], sub, c);
      assert forall x :: x in s[1..] ==> x in s;
    }
  }

  /** The replacement message holds no 'g', so it cannot contain "no pages". */
  lemma NoPagesNotInRewrite()
    ensures !Contains(UnreadablePdfMessage, "no pages")
  {
    var m := UnreadablePdfMessage;
    assert 'g' !in "Cannot read " && 'g' !in "PDF file. " && 'g' !in "Please ensure ";
    assert 'g' !in "the file is " && 'g' !in "not corrupted " && 'g' !in "or password " && 'g' !in "protected.";
    assert 'g' !in m;
    if Contains(m, "no pages") {
      ContainsChars(m, "no pages", 'g');
    }
  }

  /** Nor does "No response from AI": the empty-answer error passes the rewrite unchanged. */
  lemma NoPagesNotInNoResponse()
    ensures !Contains(NoResponseMessage, "no pages")
  {
    var m := NoResponseMessage;
    assert 'g' !in m;
    if Contains(m, "no pages") {
      ContainsChars(m, "no pages", 'g');
    }
  }
}
