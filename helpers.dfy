/** utils/helpers.ts: turning a file that the browser has read as a data URL
    into an `ImageFile`. The reading itself (FileReader, fetch, Blob) is I/O and
    is not modelled: the functions here start from the text the reader produced. */
module Helpers {
  import opened Wrappers
  import opened Types

  /** Number of occurrences of `c` in `s`. */
  function Occurrences(s: string, c: char): nat
  {
    if |s| == 0 then 0 else (if s[0] == c then 1 else 0) + Occurrences(s[1..], c)
  }

  lemma {:induction false} OccurrencesPositive(s: string, c: char)
    ensures Occurrences(s, c) > 0 <==> c in s
  {
    if |s| > 0 {
      OccurrencesPositive(s[1..], c);
      assert s == [s[0]] + s[1..];
    }
  }

  /** Position of the first `c` in `s`, or `|s|` when `s` has none. */
  function IndexOf(s: string, c: char): (k: nat)
    ensures k <= |s|
    ensures k < |s| ==> s[k] == c
    ensures forall j :: 0 <= j < k ==> s[j] != c
  {
    if |s| == 0 || s[0] == c then 0 else 1 + IndexOf(s[1..], c)
  }

  /** JavaScript's `s.split(sep)` for a one-character separator: the pieces
      between separators, in order, empty pieces included. */
  function Split(s: string, sep: char): (parts: seq<string>)
    ensures |parts| == Occurrences(s, sep) + 1
    ensures forall i :: 0 <= i < |parts| ==> sep !in parts[i]
  {
    if |s| == 0 then [""]
    else if s[0] == sep then [""] + Split(s[1..], sep)
    else
      var rest := Split(s[1..], sep);
      [[s[0]] + rest[0]] + rest[1..]
  }

  /** `parts.join(sep)`: the inverse of `Split`. */
  function Join(parts: seq<string>, sep: char): string
  {
    if |parts| == 0 then ""
    else if |parts| == 1 then parts[0]
    else parts[0] + [sep] + Join(parts[1..], sep)
  }

  /** Joining the pieces of a split gives back the string. */
  lemma {:induction false} JoinSplit(s: string, sep: char)
    ensures Join(Split(s, sep), sep) == s
  {
    if |s| == 0 {
    } else if s[0] == sep {
      var rest := Split(s[1..], sep);
      JoinSplit(s[1..], sep);
      assert Split(s, sep) == [""] + rest;
      assert ([""] + rest)[1..] == rest;
      assert s == [sep] + s[1..];
    } else {
      var rest := Split(s[1..], sep);
      JoinSplit(s[1..], sep);
      var parts := [[s[0]] + rest[0]] + rest[1..];
      assert Split(s, sep) == parts;
      assert parts[1..] == rest[1..];
      if |rest| == 1 {
        assert Join(rest, sep) == rest[0];
      } else {
        assert Join(rest, sep) == rest[0] + [sep] + Join(rest[1..], sep);
        assert Join(parts, sep) == ([s[0]] + rest[0]) + [sep] + Join(rest[1..], sep);
      }
      assert s == [s[0]] + s[1..];
    }
  }

  /** The first piece of a split is the text before the first separator, and
      the remaining pieces are the split of the text after it. */
  lemma {:induction false} SplitAtFirst(s: string, sep: char)
    ensures Split(s, sep)[0] == s[..IndexOf(s, sep)]
    ensures IndexOf(s, sep) == |s| ==> |Split(s, sep)| == 1
    ensures IndexOf(s, sep) < |s| ==> Split(s, sep)[1..] == Split(s[IndexOf(s, sep) + 1..], sep)
  {
    if |s| == 0 || s[0] == sep {
    } else {
      var t := s[1..];
      SplitAtFirst(t, sep);
      var k := IndexOf(t, sep);
      var rest := Split(t, sep);
      assert Split(s, sep) == [[s[0]] + rest[0]] + rest[1..];
      assert IndexOf(s, sep) == k + 1;
      assert [s[0]] + t[..k] == s[..k + 1];
      if k < |t| {
        assert t[k + 1..] == s[k + 2..];
      }
    }
  }

  /** Splitting the join of separator-free pieces gives back the pieces. */
  lemma {:induction false} SplitJoin(parts: seq<string>, sep: char)
    requires |parts| >= 1
    requires forall i :: 0 <= i < |parts| ==> sep !in parts[i]
    ensures Split(Join(parts, sep), sep) == parts
  {
    var s := Join(parts, sep);
    var a := parts[0];
    SplitAtFirst(s, sep);
    if |parts| == 1 {
      assert s == a;
      assert IndexOf(s, sep) == |s|;
      assert s[..|s|] == s;
      assert Split(s, sep) == [a];
    } else {
      var tail := Join(parts[1..], sep);
      assert s == a + [sep] + tail;
      assert s[|a|] == sep;
      assert forall j :: 0 <= j < |a| ==> s[j] == a[j];
      assert IndexOf(s, sep) == |a|;
      assert s[..|a|] == a;
      assert s[|a| + 1..] == tail;
      SplitJoin(parts[1..], sep);
      assert Split(s, sep) == [a] + parts[1..];
    }
  }

  /** `dataUrl.split(',')[1]`: the payload of a data URL, `undefined` (None)
      when the text holds no comma. */
  function Payload(dataUrl: string): (payload: Option<string>)
    ensures payload.None? <==> ',' !in dataUrl
    ensures payload.Some? ==> ',' !in payload.value
  {
    OccurrencesPositive(dataUrl, ',');
    var parts := Split(dataUrl, ',');
    if |parts| > 1 then Some(parts[1]) else None
  }

  /** The payload is the text strictly between the first comma and the next
      comma, or the end of the string. */
  lemma PayloadBetweenCommas(dataUrl: string)
    ensures Payload(dataUrl) ==
      var i := IndexOf(dataUrl, ',');
      if i == |dataUrl| then None
      else
        var after := dataUrl[i + 1..];
        Some(after[..IndexOf(after, ',')])
  {
    SplitAtFirst(dataUrl, ',');
    var i := IndexOf(dataUrl, ',');
    if i < |dataUrl| {
      SplitAtFirst(dataUrl[i + 1..], ',');
    }
  }

  /** For a base64 data URL as section 3 of RFC 2397 writes it, with a media
      type and a payload that hold no comma, the payload is exactly the data. */
  lemma DataUrlPayload(mediaType: string, data: string)
    requires ',' !in mediaType && ',' !in data
    ensures Payload("data:" + mediaType + ";base64," + data) == Some(data)
  {
    var header := "data:" + mediaType + ";base64";
    assert ',' !in header by {
      forall j | 0 <= j < |header| ensures header[j] != ',' {
        if j >= 5 && j < 5 + |mediaType| {
          assert header[j] == mediaType[j - 5];
        }
      }
    }
    assert Join([header, data], ',') == "data:" + mediaType + ";base64," + data;
    SplitJoin([header, data], ',');
  }

  /** A browser `File`: its name and its declared content type (`file.type`). */
  datatype BrowserFile = BrowserFile(name: string, kind: string)

  /** The record `fileToImageFile(file)` resolves with, given the data URL the
      reader produced: the payload of the URL and the file's declared type.
      None stands for the record whose `base64` would be `undefined`. */
  function FileToImageFile(file: BrowserFile, dataUrl: string): (image: Option<ImageFile>)
    ensures image.Some? <==> ',' in dataUrl
    ensures image.Some? ==> image.value.mimeType == file.kind && ',' !in image.value.base64
  {
    match Payload(dataUrl)
    case None => None
    case Some(payload) => Some(ImageFile(payload, file.kind))
  }

  /** The media type is the file's declared type, whatever the data URL's
      header says, and the payload is the data after the header. */
  lemma FileToImageFileIgnoresHeader(file: BrowserFile, mediaType: string, data: string)
    requires ',' !in mediaType && ',' !in data
    ensures FileToImageFile(file, "data:" + mediaType + ";base64," + data) == Some(ImageFile(data, file.kind))
  {
    DataUrlPayload(mediaType, data);
  }

  /** A character the File constructor keeps in a type: U+0020 to U+007E. */
  predicate Printable(c: char)
  {
    ' ' <= c <= '~'
  }

  predicate IsAsciiUpper(c: char)
  {
    'A' <= c <= 'Z'
  }

  /** ASCII lower-casing of one character; every other character is kept. */
  function AsciiLower(c: char): (d: char)
    ensures IsAsciiUpper(c) ==> 'a' <= d <= 'z' && d as int == c as int + 32
    ensures !IsAsciiUpper(c) ==> d == c
  {
    if IsAsciiUpper(c) then (c as int + 32) as char else c
  }

  function AsciiLowercase(t: string): (r: string)
    ensures |r| == |t|
    ensures forall i :: 0 <= i < |t| ==> r[i] == AsciiLower(t[i])
  {
    if |t| == 0 then "" else [AsciiLower(t[0])] + AsciiLowercase(t[1..])
  }

  /** A type already in the form the File constructor stores: printable
      ASCII without capitals. */
  predicate NormalType(t: string)
  {
    forall i :: 0 <= i < |t| ==> Printable(t[i]) && !IsAsciiUpper(t[i])
  }

  /** The `type` that `new File(parts, name, { type: t })` records, as the
      File API standard (section 4.1, the File constructor) sets it: the empty
      string when `t` holds a character outside U+0020..U+007E, otherwise `t`
      with its ASCII capitals lowered. */
  function FileType(t: string): (r: string)
    ensures (forall i :: 0 <= i < |t| ==> Printable(t[i])) ==>
      |r| == |t| && forall i :: 0 <= i < |t| ==> r[i] == AsciiLower(t[i])
    ensures (exists i :: 0 <= i < |t| && !Printable(t[i])) ==> r == ""
    ensures NormalType(r)
  {
    if forall i :: 0 <= i < |t| ==> Printable(t[i]) then AsciiLowercase(t) else ""
  }

  /** A type already in normal form is recorded unchanged, so normalising
      twice is normalising once. */
  lemma FileTypeKeepsNormal(t: string)
    ensures NormalType(t) ==> FileType(t) == t
    ensures FileType(FileType(t)) == FileType(t)
  {
    var r := FileType(t);
    assert FileType(r) == r;
    if NormalType(t) {
      assert FileType(t) == t;
    }
  }

  /** `urlToImageFile`: the fetched blob is wrapped in a file named
      "background.jpg" whose type is the blob's, as the File constructor
      records it, and read like any other file. */
  function UrlToImageFile(blobType: string, dataUrl: string): (image: Option<ImageFile>)
    ensures image.Some? <==> ',' in dataUrl
    ensures image.Some? ==> image.value.mimeType == FileType(blobType)
    ensures image.Some? && NormalType(blobType) ==> image.value.mimeType == blobType
  {
    FileTypeKeepsNormal(blobType);
    FileToImageFile(BrowserFile("background.jpg", FileType(blobType)), dataUrl)
  }
}
