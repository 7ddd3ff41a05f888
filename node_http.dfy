/**
 The parts of Node's `http` runtime that the proxy's request handler touches: the
 plain header object of an incoming request, the incoming request itself, and the
 server response with its case-insensitive header table, status code and body.
 */
module NodeHttp {

  import opened Wrappers

  /** `String.prototype.toLowerCase` on one character, restricted to ASCII letters. */
  function LowerChar(c: char): char
  {
    if 'A' <= c <= 'Z' then (c as int + 32) as char else c
  }

  /** `name.toLowerCase()`: the key under which a response header is stored. */
  function Lower(s: string): string
  {
    seq(|s|, i requires 0 <= i < |s| => LowerChar(s[i]))
  }

  predicate IsLowerCase(s: string)
  {
    forall i :: 0 <= i < |s| ==> !('A' <= s[i] <= 'Z')
  }

  /** A stored key is already lower case, so lower-casing it again finds the same slot. */
  lemma LowerIsLowerCase(s: string)
    ensures |Lower(s)| == |s|
    ensures IsLowerCase(Lower(s))
    ensures Lower(Lower(s)) == Lower(s)
  {
  }

  /** One slot of a response's header table: the name as the caller spelled it, and its value. */
  datatype HeaderEntry = HeaderEntry(name: string, value: string)

  /** Every slot of a response header table is keyed by its own name in lower case. */
  ghost predicate WellKeyed(t: map<string, HeaderEntry>)
  {
    forall k :: k in t ==> k == Lower(t[k].name)
  }

  /** `res.getHeader(name)`: header names are compared case-insensitively. */
  function Lookup(t: map<string, HeaderEntry>, name: string): (r: Option<string>)
    ensures r.Some? <==> Lower(name) in t
    ensures r.Some? ==> r.value == t[Lower(name)].value
  {
    var k := Lower(name);
    if k in t then Some(t[k].value) else None
  }

  /** Two spellings of a name that differ only in letter case read the same slot. */
  lemma LookupIgnoresCase(t: map<string, HeaderEntry>, a: string, b: string)
    requires Lower(a) == Lower(b)
    ensures Lookup(t, a) == Lookup(t, b)
  {
  }

  /**
   The header table after `writeHead` has passed each non-empty key of its header
   object, in the object's key order, to `setHeader`: later keys overwrite earlier ones.
   */
  function MergeWritten(t: map<string, HeaderEntry>, written: seq<(string, string)>): map<string, HeaderEntry>
    decreases |written|
  {
    if written == [] then t
    else
      var prev := MergeWritten(t, written[..|written| - 1]);
      var (k, v) := written[|written| - 1];
      if k == "" then prev else prev[Lower(k) := HeaderEntry(k, v)]
  }

  /** A slot that no written key names keeps what it held before `writeHead`. */
  lemma {:induction false} MergeKeepsUnnamed(t: map<string, HeaderEntry>, written: seq<(string, string)>, k: string)
    requires forall i :: 0 <= i < |written| ==> written[i].0 == "" || Lower(written[i].0) != k
    ensures (k in MergeWritten(t, written)) == (k in t)
    ensures k in t ==> MergeWritten(t, written)[k] == t[k]
  {
    if written != [] {
      MergeKeepsUnnamed(t, written[..|written| - 1], k);
    }
  }

  /** The last written key for a slot decides it: the object passed to `writeHead` wins over `setHeader`. */
  lemma {:induction false} MergeLastWins(t: map<string, HeaderEntry>, written: seq<(string, string)>, i: int)
    requires 0 <= i < |written| && written[i].0 != ""
    requires forall j :: i < j < |written| ==> written[j].0 == "" || Lower(written[j].0) != Lower(written[i].0)
    ensures Lower(written[i].0) in MergeWritten(t, written)
    ensures MergeWritten(t, written)[Lower(written[i].0)] == HeaderEntry(written[i].0, written[i].1)
  {
    if i < |written| - 1 {
      var prefix := written[..|written| - 1];
      assert prefix[i] == written[i];
      MergeLastWins(t, prefix, i);
    }
  }

  /** The exceptions Node's response methods throw in the model. */
  datatype HttpError =
    | HeadersAlreadySent   // ERR_HTTP_HEADERS_SENT
    | InvalidStatusCode    // ERR_HTTP_INVALID_STATUS_CODE

  /** The status codes `writeHead` accepts. */
  predicate ValidStatusCode(status: int)
  {
    100 <= status <= 999
  }

  /**
   A plain JavaScript object used as a dictionary of header values, such as
   `req.headers` (whose keys Node has already lower-cased) or a copy of it.
   */
  class HeaderObject {
    var entries: map<string, string>

    constructor (entries: map<string, string>)
      ensures this.entries == entries
    {
      this.entries := entries;
    }

    /** `{ ...source }`: a new object with the same own properties. */
    constructor CopyOf(source: HeaderObject)
      ensures entries == source.entries
    {
      entries := source.entries;
    }

    /** `obj[key]`, with `undefined` as `None`. */
    function Get(key: string): (r: Option<string>)
      reads this
      ensures r.Some? <==> key in entries
      ensures r.Some? ==> r.value == entries[key]
    {
      if key in entries then Some(entries[key]) else None
    }

    /** `obj[key] = value`. */
    method Assign(key: string, value: string)
      modifies this
      ensures entries == old(entries)[key := value]
    {
      entries := entries[key := value];
    }

    /** `delete obj[key]`: removes the key if present, does nothing otherwise. */
    method Delete(key: string)
      modifies this
      ensures entries == old(entries) - {key}
    {
      entries := entries - {key};
    }
  }

  /** The parts of `http.IncomingMessage` the handler reads; `verb` is `req.method`. */
  class IncomingMessage {
    const verb: string
    const url: string
    const headers: HeaderObject

    constructor (verb: string, url: string, headers: HeaderObject)
      ensures this.verb == verb && this.url == url && this.headers == headers
    {
      this.verb := verb;
      this.url := url;
      this.headers := headers;
    }
  }

  /**
   The parts of `http.ServerResponse` the handler writes: the status code, the header
   table that `setHeader` and `writeHead` fill and `getHeader` reads, whether the head
   has been sent, the body written so far and whether the response is finished.
   */
  class ServerResponse {
    var statusCode: int
    var headers: map<string, HeaderEntry>
    var headersSent: bool
    var body: string
    var finished: bool

    ghost predicate Valid()
      reads this
    {
      WellKeyed(headers)
    }

    /** A fresh response: status 200, no headers and nothing written yet. */
    constructor ()
      ensures Valid()
      ensures statusCode == 200 && headers == map[]
      ensures !headersSent && body == "" && !finished
    {
      statusCode := 200;
      headers := map[];
      headersSent := false;
      body := "";
      finished := false;
    }

    function GetHeader(name: string): Option<string>
      reads this
    {
      Lookup(headers, name)
    }

    /**
     `res.setHeader(name, value)`: replaces whatever the slot for `name`, in any letter
     case, held; throws once the head has been sent.
     */
    method SetHeader(name: string, value: string) returns (err: Option<HttpError>)
      requires Valid()
      modifies this
      ensures Valid()
      ensures err == (if old(headersSent) then Some(HeadersAlreadySent) else None)
      ensures err.Some? ==> unchanged(this)
      ensures err.None? ==> headers == old(headers)[Lower(name) := HeaderEntry(name, value)]
      ensures err.None? ==> GetHeader(name) == Some(value)
      ensures statusCode == old(statusCode) && headersSent == old(headersSent)
      ensures body == old(body) && finished == old(finished)
    {
      if headersSent {
        err := Some(HeadersAlreadySent);
        return;
      }
      headers := headers[Lower(name) := HeaderEntry(name, value)];
      err := None;
    }

    /**
     `res.writeHead(status, written)`: throws if the head was already sent or the
     status is out of range; otherwise fixes the status, passes each non-empty key of
     `written` to `setHeader` in order, and sends the head. Node takes this merging
     path only once `setHeader` has created the response's header table; otherwise it
     sends `written` as it is and leaves the table empty. The handler always calls
     `setHeader` first, so only the merging path is modelled.
     */
    method WriteHead(status: int, written: seq<(string, string)>) returns (err: Option<HttpError>)
      requires Valid()
      modifies this
      ensures Valid()
      ensures old(headersSent) ==> err == Some(HeadersAlreadySent) && unchanged(this)
      ensures !old(headersSent) && !ValidStatusCode(status) ==> err == Some(InvalidStatusCode) && unchanged(this)
      ensures !old(headersSent) && ValidStatusCode(status) ==>
        && err.None?
        && statusCode == status && headersSent
        && headers == MergeWritten(old(headers), written)
        && body == old(body) && finished == old(finished)
    {
      if headersSent {
        err := Some(HeadersAlreadySent);
        return;
      }
      if !ValidStatusCode(status) {
        err := Some(InvalidStatusCode);
        return;
      }
      statusCode := status;
      var i := 0;
      while i < |written|
        invariant 0 <= i <= |written|
        invariant Valid() && !headersSent
        invariant headers == MergeWritten(old(headers), written[..i])
        invariant statusCode == status && body == old(body) && finished == old(finished)
      {
        var (k, v) := written[i];
        if k != "" {
          var _ := SetHeader(k, v);
        }
        assert written[..i + 1][..i] == written[..i];
        i := i + 1;
      }
      assert written[..i] == written;
      headersSent := true;
      err := None;
    }

    /** `res.end(chunk)`: writes the last chunk of the body, sending the head if needed, and finishes. */
    method End(chunk: string)
      requires Valid()
      modifies this
      ensures Valid()
      ensures body == old(body) + chunk && finished && headersSent
      ensures statusCode == old(statusCode) && headers == old(headers)
    {
      body := body + chunk;
      headersSent := true;
      finished := true;
    }
  }
}
