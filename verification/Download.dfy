/** Serving a stored file's bytes: status, headers and body of the response. */
module Download {
  import opened Contracts
  import opened Store
  import opened Decimal
  import opened ByteRange

  datatype HttpError = NotFound | RangeNotSatisfiable(size: nat)

  class Response {
    var status: nat
    var headers: map<string, string>
    var body: seq<byte>

    constructor ()
      ensures status == 0 && headers == map[] && body == []
    {
      status, headers, body := 0, map[], [];
    }
  }

  datatype MediaStream = MediaStream(bytes: seq<byte>, contentType: string, size: nat)

  datatype Served = Served(status: nat, headers: map<string, string>, body: seq<byte>)

  function ContentType(f: MediaFile): string {
    if f.contentType.Some? then f.contentType.value else "application/octet-stream"
  }

  /** The stored stream takes its end exclusive. */
  function Slice(data: seq<byte>, start: nat, end: nat): seq<byte> {
    if start <= end <= |data| then data[start..end] else []
  }

  function Opened(f: MediaFile, range: Parsed): MediaStream {
    MediaStream(if range.Range? then Slice(f.data, range.start, range.end + 1) else f.data, ContentType(f), |f.data|)
  }

  function ContentRange(start: nat, end: nat, size: nat): string {
    "bytes " + Print(start) + "-" + Print(end) + "/" + Print(size)
  }

  function Headers(contentType: string, length: nat): map<string, string> {
    map["Content-Type" := contentType, "Content-Length" := Print(length), "Accept-Ranges" := "bytes"]
  }

  /** 200 with the whole stream's length, or 206 with the range's, inclusive of its end. */
  function Written(media: MediaStream, range: Parsed): Served {
    match range
    case Range(start, end) =>
      Served(206,
             Headers(media.contentType, if start <= end then end - start + 1 else 0)
               ["Content-Range" := ContentRange(start, end, media.size)],
             media.bytes)
    case NoRange => Served(200, Headers(media.contentType, media.size), media.bytes)
    case Unsatisfiable => Served(200, Headers(media.contentType, media.size), media.bytes)
  }

  /** The whole response to a request for a stored file. */
  function Serve(f: MediaFile, header: Option<string>): Result<Served, HttpError> {
    var range := ParseByteRange(header, |f.data|);
    if range.Unsatisfiable? then Failure(RangeNotSatisfiable(|f.data|))
    else Success(Written(Opened(f, range), range))
  }

  class IssueMediaController {
    const db: Database

    constructor (db: Database)
      ensures this.db == db
    {
      this.db := db;
    }

    method OpenDownload(mediaId: FileId, range: Parsed) returns (r: Result<MediaStream, HttpError>)
      ensures match FindFile(db.files, mediaId)
              case None => r == Failure(NotFound)
              case Some(f) => r == Success(Opened(f, range))
    {
      var found := FindFile(db.files, mediaId);
      if found.None? {
        return Failure(NotFound);
      }
      var file := found.value;
      var bytes := file.data;
      if range.Range? {
        bytes := Slice(file.data, range.start, range.end + 1);
      }
      return Success(MediaStream(bytes, ContentType(file), |file.data|));
    }

    method Get(mediaId: FileId, header: Option<string>, res: Response) returns (r: Result<(), HttpError>)
      modifies res
      ensures match FindFile(db.files, mediaId)
              case None => r == Failure(NotFound) && unchanged(res)
              case Some(f) =>
                match Serve(f, header)
                case Failure(e) => r == Failure(e) && unchanged(res)
                case Success(s) => r == Success(()) && Served(res.status, res.headers, res.body) == s
    {
      var whole := OpenDownload(mediaId, NoRange);
      if whole.Failure? {
        return Failure(whole.error);
      }
      var requested := ParseByteRange(header, whole.value.size);
      if requested == Unsatisfiable {
        return Failure(RangeNotSatisfiable(whole.value.size));
      }
      var media := whole;
      if requested.Range? {
        RangeInside(header, whole.value.size);
        media := OpenDownload(mediaId, requested);
      }
      Send(media.value, requested, res);
      return Success(());
    }

    method Send(media: MediaStream, requested: Parsed, res: Response)
      requires requested.Range? ==> requested.start <= requested.end
      modifies res
      ensures Served(res.status, res.headers, res.body) == Written(media, requested)
    {
      var length := if requested.Range? then requested.end - requested.start + 1 else media.size;
      var headers := Headers(media.contentType, length);
      if requested.Range? {
        headers := headers["Content-Range" := ContentRange(requested.start, requested.end, media.size)];
      }
      res.status := if requested.Range? then 206 else 200;
      res.headers := headers;
      res.body := media.bytes;
    }
  }

  lemma RangeInside(header: Option<string>, size: nat)
    ensures var p := ParseByteRange(header, size);
            p.Range? ==> p.start <= p.end < size
  {
    if header.Some? {
      ParseSelectsExactly(header.value, size);
    }
  }

  /** What a written response to an opened range says: length and body agree, and 206 names its range. */
  lemma WrittenAgrees(f: MediaFile, p: Parsed)
    requires !p.Unsatisfiable? && (p.Range? ==> p.start <= p.end < |f.data|)
    ensures var s := Written(Opened(f, p), p);
            && s.status == (if p.Range? then 206 else 200)
            && "Content-Length" in s.headers && s.headers["Content-Length"] == Print(|s.body|)
            && s.body == (if p.Range? then f.data[p.start..p.end + 1] else f.data)
            && HeadersFor(f, s)
            && ("Content-Range" in s.headers <==> p.Range?)
            && (p.Range? ==> s.headers["Content-Range"] == ContentRange(p.start, p.end, |f.data|))
  {
  }

  /** Every response names the file's type, or the generic one, and says that ranges are accepted. */
  predicate HeadersFor(f: MediaFile, s: Served) {
    && s.headers.Keys == {"Content-Type", "Content-Length", "Accept-Ranges"}
                         + (if s.status == 206 then {"Content-Range"} else {})
    && s.headers["Content-Type"] == (match f.contentType
                                     case Some(t) => t
                                     case None => "application/octet-stream")
    && s.headers["Accept-Ranges"] == "bytes"
  }

  /** A 416 answers exactly a well-formed header, its unit in lower case, that selects no byte of the file. */
  lemma RefusedExactly(f: MediaFile, header: Option<string>)
    ensures Serve(f, header).Failure? ==> Serve(f, header).error == RangeNotSatisfiable(|f.data|)
    ensures Serve(f, header).Failure? <==>
              && header.Some? && LowerCaseUnit(header.value)
              && exists spec :: Names(header.value, spec) && forall b: nat :: !Selects(spec, |f.data|, b)
  {
    if header.Some? && LowerCaseUnit(header.value) {
      ParseSelectsExactly(header.value, |f.data|);
      if exists spec :: Names(header.value, spec) && forall b: nat :: !Selects(spec, |f.data|, b) {
        var spec :| Names(header.value, spec) && forall b: nat :: !Selects(spec, |f.data|, b);
        NamesIsMatch(header.value, spec);
        ClampSelects(spec, |f.data|);
        assert Clamp(spec, |f.data|).Range? ==> Selects(spec, |f.data|, Clamp(spec, |f.data|).start);
      }
    }
  }

  /**
   Status, headers and body agree: Content-Length is always the body's own length and Content-Type
   the file's, a 200 carries the whole file, and a 206 body is, in order, exactly the bytes the
   header selects, under a Content-Range that names the first, the last and the size.
   */
  lemma {:induction false} ResponseAgrees(f: MediaFile, header: Option<string>)
    requires Serve(f, header).Success?
    ensures var s := Serve(f, header).value;
            && "Content-Length" in s.headers && s.headers["Content-Length"] == Print(|s.body|)
            && HeadersFor(f, s)
            && (s.status == 200 || s.status == 206)
            && (s.status == 200 ==> s.body == f.data && "Content-Range" !in s.headers)
            && (s.status == 206 ==>
                  && header.Some?
                  && exists spec, start: nat, end: nat :: IsPart(f.data, header.value, spec, start, end, s))
  {
    var p := ParseByteRange(header, |f.data|);
    RangeInside(header, |f.data|);
    WrittenAgrees(f, p);
    if p.Range? {
      ParseSelectsExactly(header.value, |f.data|);
      var spec :| Names(header.value, spec) && forall b: nat :: p.start <= b <= p.end <==> Selects(spec, |f.data|, b);
      assert IsPart(f.data, header.value, spec, p.start, p.end, Serve(f, header).value);
    }
  }

  ghost predicate IsPart(data: seq<byte>, header: string, spec: Spec, start: nat, end: nat, s: Served) {
    && Names(header, spec)
    && start <= end < |data|
    && (forall b: nat :: start <= b <= end <==> Selects(spec, |data|, b))
    && s.body == data[start..end + 1]
    && "Content-Range" in s.headers
    && s.headers["Content-Range"] == "bytes " + Print(start) + "-" + Print(end) + "/" + Print(|data|)
  }

  // ------------------------------------------------------------ reassembly

  /** The body served for the printed range of the bytes from `a` up to but not including `b`. */
  function Fetched(f: MediaFile, a: nat, b: nat): seq<byte> {
    if b <= a then []
    else
      match Serve(f, Some(RangeHeader(a, b - 1)))
      case Success(s) => s.body
      case Failure(_) => []
  }

  lemma FetchGives(f: MediaFile, a: nat, b: nat)
    requires a < b <= |f.data|
    ensures Fetched(f, a, b) == Slice(f.data, a, b)
  {
    var range := ParseByteRange(Some(RangeHeader(a, b - 1)), |f.data|);
    assert range == Range(a, b - 1) by {
      RangeRoundTrip(a, b - 1, |f.data|);
    }
    assert Written(Opened(f, range), range).body == Slice(f.data, a, b);
  }

  /** Ascending cut points from `0` to the file's size. */
  predicate Cuts(cuts: seq<nat>, size: nat) {
    && cuts != [] && cuts[0] == 0 && cuts[|cuts| - 1] <= size
    && forall j, k :: 0 <= j < k < |cuts| ==> cuts[j] < cuts[k]
  }

  function Join(parts: seq<seq<byte>>): seq<byte> {
    if parts == [] then [] else Join(parts[..|parts| - 1]) + parts[|parts| - 1]
  }

  lemma {:induction false} JoinedSlices(data: seq<byte>, cuts: seq<nat>, parts: seq<seq<byte>>, n: nat)
    requires Cuts(cuts, |data|) && |parts| == |cuts| - 1 && n <= |parts|
    requires forall k :: 0 <= k < |parts| ==> parts[k] == Slice(data, cuts[k], cuts[k + 1])
    ensures Join(parts[..n]) == data[..cuts[n]]
  {
    if n > 0 {
      JoinedSlices(data, cuts, parts, n - 1);
      assert parts[..n][..n - 1] == parts[..n - 1];
      var a, b := cuts[n - 1], cuts[n];
      assert parts[n - 1] == Slice(data, a, b) == data[a..b];
      assert data[..a] + data[a..b] == data[..b];
    }
  }

  /**
   Fetching a file in any adjacent ranges and joining the bodies in order gives the file's bytes up
   to the last cut, so exactly the file when the ranges cover it.
   */
  lemma {:induction false} RangesReassemble(f: MediaFile, cuts: seq<nat>, bodies: seq<seq<byte>>)
    requires Cuts(cuts, |f.data|) && |bodies| == |cuts| - 1
    requires forall k :: 0 <= k < |bodies| ==> bodies[k] == Fetched(f, cuts[k], cuts[k + 1])
    ensures Join(bodies) == f.data[..cuts[|cuts| - 1]]
    ensures cuts[|cuts| - 1] == |f.data| ==> Join(bodies) == f.data
  {
    forall k | 0 <= k < |bodies|
      ensures bodies[k] == Slice(f.data, cuts[k], cuts[k + 1])
    {
      FetchGives(f, cuts[k], cuts[k + 1]);
    }
    JoinedSlices(f.data, cuts, bodies, |bodies|);
    assert bodies[..|bodies|] == bodies;
  }
}
