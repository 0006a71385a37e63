/**
 * The part of net/http's response writer that the health handler relies on:
 * a header map, a status written once, the headers committed with that status,
 * and a body. Every call the handler makes is one `WriterCall`, and a response is
 * the result of running those calls in order.
 */
module Http {
  import opened Common

  type Header = map<string, string>

  const StatusOK: int := 200
  const StatusInternalServerError: int := 500
  const StatusServiceUnavailable: int := 503

  /** One call on a response writer. */
  datatype WriterCall =
    | HeaderSet(key: string, value: string) // w.Header().Set(key, value)
    | HeaderWritten(code: int)              // w.WriteHeader(code)
    | BodyWritten(data: Bytes)              // w.Write(data)

  /**
   * A response writer's observable state: the handler's header map, the status
   * once written, the header map as committed to the wire when the status was
   * written, and the body written so far.
   */
  datatype Response = Response(header: Header, status: Option<int>, sent: Header, body: Bytes)

  /** A writer that nothing has been done with yet. */
  const Fresh: Response := Response(map[], None, map[], [])

  /**
   * The effect of one call. The first WriteHeader fixes the status and commits
   * the header map as it is at that moment; a later one has no effect. A Write
   * before any WriteHeader first writes status 200. A header set after the
   * status changes the map but not what was committed.
   */
  function Apply(r: Response, w: WriterCall): (r': Response)
    ensures !w.HeaderSet? ==> r'.status.Some?
    ensures r.status.Some? ==> r'.status == r.status && r'.sent == r.sent
    ensures w.HeaderSet? ==> r'.header == r.header[w.key := w.value] && r'.body == r.body
    ensures !w.HeaderSet? ==> r'.header == r.header
    ensures w.HeaderSet? ==> r'.status == r.status && r'.sent == r.sent
    ensures w.HeaderWritten? && r.status.None? ==> r'.status == Some(w.code) && r'.sent == r.header
    ensures w.BodyWritten? && r.status.None? ==> r'.status == Some(StatusOK) && r'.sent == r.header
    ensures w.BodyWritten? ==> r'.body == r.body + w.data
    ensures !w.BodyWritten? ==> r'.body == r.body
  {
    var committed :=
      if r.status.Some? || w.HeaderSet? then r
      else r.(status := Some(if w.HeaderWritten? then w.code else StatusOK), sent := r.header);
    match w
    case HeaderSet(k, v) => committed.(header := committed.header[k := v])
    case HeaderWritten(_) => committed
    case BodyWritten(data) => committed.(body := committed.body + data)
  }

  /** The response after the calls `ws`, made in order on a writer in state `r`. */
  function Run(r: Response, ws: seq<WriterCall>): Response
    decreases |ws|
  {
    if ws == [] then r else Apply(Run(r, ws[..|ws| - 1]), ws[|ws| - 1])
  }

  /** Running two call sequences one after the other is running their concatenation. */
  lemma {:induction false} RunAppend(r: Response, ws: seq<WriterCall>, more: seq<WriterCall>)
    ensures Run(r, ws + more) == Run(Run(r, ws), more)
    decreases |more|
  {
    if more == [] {
      assert ws + more == ws;
    } else {
      var n := |more| - 1;
      assert (ws + more)[..|ws + more| - 1] == ws + more[..n];
      assert (ws + more)[|ws + more| - 1] == more[n];
      RunAppend(r, ws, more[..n]);
    }
  }

  /**
   * http.Error as the health handler uses it: the status, then the error text
   * as the body.
   */
  function ErrorWrites(text: Bytes, code: int): seq<WriterCall>
  {
    [HeaderWritten(code), BodyWritten(text)]
  }

  /** On a writer with no status yet, http.Error leaves the header map as it was. */
  lemma ErrorResponse(r: Response, text: Bytes, code: int)
    requires r.status.None?
    ensures Run(r, ErrorWrites(text, code)) == r.(status := Some(code), sent := r.header, body := r.body + text)
  {
    var ws := ErrorWrites(text, code);
    var head := Apply(r, HeaderWritten(code));
    calc {
      Run(r, ws);
      Apply(Run(r, ws[..1]), BodyWritten(text));
      { assert ws[..1] == [HeaderWritten(code)] && ws[..1][..0] == []; }
      Apply(Apply(Run(r, []), HeaderWritten(code)), BodyWritten(text));
      Apply(head, BodyWritten(text));
    }
  }

  class ResponseWriter {
    var header: Header
    var status: Option<int>
    var sent: Header
    var body: Bytes
    /** Every call made on this writer, oldest first. */
    ghost var trace: seq<WriterCall>

    function State(): Response
      reads this
    {
      Response(header, status, sent, body)
    }

    constructor ()
      ensures State() == Fresh && trace == []
    {
      header, status, sent, body := map[], None, map[], [];
      trace := [];
    }

    /** w.Header().Set(key, value) */
    method Set(key: string, value: string)
      modifies this
      ensures State() == Apply(old(State()), HeaderSet(key, value))
      ensures trace == old(trace) + [HeaderSet(key, value)]
    {
      header := header[key := value];
      trace := trace + [HeaderSet(key, value)];
    }

    /** w.WriteHeader(code) */
    method WriteHeader(code: int)
      modifies this
      ensures State() == Apply(old(State()), HeaderWritten(code))
      ensures trace == old(trace) + [HeaderWritten(code)]
    {
      if status.None? {
        status := Some(code);
        sent := header;
      }
      trace := trace + [HeaderWritten(code)];
    }

    /** w.Write(data) */
    method Write(data: Bytes)
      modifies this
      ensures State() == Apply(old(State()), BodyWritten(data))
      ensures trace == old(trace) + [BodyWritten(data)]
    {
      if status.None? {
        status := Some(StatusOK);
        sent := header;
      }
      body := body + data;
      trace := trace + [BodyWritten(data)];
    }
  }

  /** http.Error(w, text, code) */
  method Error(w: ResponseWriter, text: Bytes, code: int)
    modifies w
    ensures w.State() == Run(old(w.State()), ErrorWrites(text, code))
    ensures w.trace == old(w.trace) + ErrorWrites(text, code)
  {
    ghost var r0 := w.State();
    w.WriteHeader(code);
    assert w.State() == Run(r0, [HeaderWritten(code)]);
    w.Write(text);
    assert ErrorWrites(text, code)[..1] == [HeaderWritten(code)];
  }
}
