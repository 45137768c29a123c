/** The user session on its way through Kafka: headers built, converted, extracted, and put back into a context. */
module Session {
  import opened Prelude
  import opened Parts

  const SESSION_HEADER_KEY: string := "session-uuid"

  datatype Header = Header(key: string, value: string)

  // A record header as the client library hands it over: possibly a nil pointer, possibly with a nil key.
  datatype RecordHeader = NilHeader | RecordHeader(key: Option<string>, value: string)

  datatype Context = Context(session: Option<Uuid>, user: Option<Uuid>)

  // uuid.UUID.String and uuid.Parse.
  datatype Codec = Codec(format: Uuid -> string, parse: string -> Option<Uuid>)

  ghost predicate Faithful(c: Codec) {
    forall u: Uuid :: c.format(u) != "" && c.parse(c.format(u)) == Some(u)
  }

  function ProducerSessionHeaders(c: Codec, ctx: Context): seq<Header> {
    if ctx.session.None? || ctx.session.value == NIL then []
    else [Header(SESSION_HEADER_KEY, c.format(ctx.session.value))]
  }

  function Converted(headers: seq<Header>): seq<RecordHeader> {
    if headers == [] then []
    else
      var last := headers[|headers| - 1];
      Converted(headers[..|headers| - 1]) + [RecordHeader(Some(last.key), last.value)]
  }

  /** The headers that survive extraction: nil pointers and nil keys are dropped. */
  function Extracted(wire: seq<RecordHeader>): seq<Header> {
    if wire == [] then []
    else
      var last := wire[|wire| - 1];
      Extracted(wire[..|wire| - 1])
      + if last.RecordHeader? && last.key.Some? then [Header(last.key.value, last.value)] else []
  }

  lemma {:induction false} ConvertedAt(headers: seq<Header>)
    ensures |Converted(headers)| == |headers|
    ensures forall i :: 0 <= i < |headers| ==>
      Converted(headers)[i] == RecordHeader(Some(headers[i].key), headers[i].value)
  {
    if headers != [] {
      ConvertedAt(headers[..|headers| - 1]);
    }
  }

  lemma {:induction false} ExtractedMembers(wire: seq<RecordHeader>)
    ensures forall h :: h in Extracted(wire) <==> RecordHeader(Some(h.key), h.value) in wire
  {
    if wire != [] {
      var init, last := wire[..|wire| - 1], wire[|wire| - 1];
      ExtractedMembers(init);
      assert wire == init + [last];
    }
  }

  predicate CarriesSession(h: Header) {
    h.key == SESSION_HEADER_KEY && h.value != ""
  }

  /** The first non-empty session header decides, even when it cannot be parsed. */
  function Restored(c: Codec, headers: seq<Header>, ctx: Context): Context {
    if headers == [] then ctx
    else if CarriesSession(headers[0]) then
      (if c.parse(headers[0].value).Some? then ctx.(session := c.parse(headers[0].value)) else ctx)
    else Restored(c, headers[1..], ctx)
  }

  method ConvertHeaders(headers: seq<Header>) returns (wire: seq<RecordHeader>)
    ensures wire == Converted(headers)
    ensures |wire| == |headers|
    ensures forall i :: 0 <= i < |wire| ==> wire[i] == RecordHeader(Some(headers[i].key), headers[i].value)
  {
    wire := [];
    for i := 0 to |headers|
      invariant wire == Converted(headers[..i])
    {
      assert headers[..i + 1][..i] == headers[..i];
      wire := wire + [RecordHeader(Some(headers[i].key), headers[i].value)];
    }
    assert headers[..|headers|] == headers;
    ConvertedAt(headers);
  }

  method ExtractHeaders(wire: seq<RecordHeader>) returns (headers: seq<Header>)
    ensures headers == Extracted(wire)
    ensures forall h :: h in headers <==> RecordHeader(Some(h.key), h.value) in wire
  {
    headers := [];
    for i := 0 to |wire|
      invariant headers == Extracted(wire[..i])
    {
      assert wire[..i + 1][..i] == wire[..i];
      if wire[i].RecordHeader? && wire[i].key.Some? {
        headers := headers + [Header(wire[i].key.value, wire[i].value)];
      }
    }
    assert wire[..|wire|] == wire;
    ExtractedMembers(wire);
  }

  /** ConsumerSession: the context the next handler is called with. */
  method ConsumerSession(c: Codec, headers: seq<Header>, ctx: Context) returns (next: Context)
    ensures next == Restored(c, headers, ctx)
  {
    next := ctx;
    for i := 0 to |headers|
      invariant next == ctx && Restored(c, headers, ctx) == Restored(c, headers[i..], ctx)
    {
      if headers[i].key == SESSION_HEADER_KEY && |headers[i].value| > 0 {
        var session := c.parse(headers[i].value);
        if session.Some? {
          next := next.(session := session);
        }
        break;
      }
      assert headers[i..][1..] == headers[i + 1..];
    }
  }

  lemma {:induction false} ExtractionUndoesConversion(headers: seq<Header>)
    ensures Extracted(Converted(headers)) == headers
  {
    if headers != [] {
      var init := headers[..|headers| - 1];
      ExtractionUndoesConversion(init);
      assert Converted(headers)[..|Converted(headers)| - 1] == Converted(init);
    }
  }

  lemma {:induction false} ExtractedConcat(a: seq<RecordHeader>, b: seq<RecordHeader>)
    ensures Extracted(a + b) == Extracted(a) + Extracted(b)
    decreases |b|
  {
    if b == [] {
      assert a + b == a;
    } else {
      ExtractedConcat(a, b[..|b| - 1]);
      assert (a + b)[..|a + b| - 1] == a + b[..|b| - 1];
    }
  }

  /** Headers without a session are passed over. */
  lemma {:induction false} SkipForeign(c: Codec, foreign: seq<Header>, rest: seq<Header>, ctx: Context)
    requires forall h :: h in foreign ==> !CarriesSession(h)
    ensures Restored(c, foreign + rest, ctx) == Restored(c, rest, ctx)
  {
    if foreign == [] {
      assert foreign + rest == rest;
    } else {
      SkipForeign(c, foreign[1..], rest, ctx);
      assert (foreign + rest)[1..] == foreign[1..] + rest;
      assert foreign[0] in foreign;
    }
  }

  // Headers others have put around ours, and the bare context of the consuming session.
  datatype Hop = Hop(before: seq<RecordHeader>, after: seq<RecordHeader>, bare: Context)

  /** Produce in one service, consume in the next. */
  function AcrossHop(c: Codec, ctx: Context, hop: Hop): Context {
    Restored(c, Extracted(hop.before + Converted(ProducerSessionHeaders(c, ctx)) + hop.after), hop.bare)
  }

  function AcrossHops(c: Codec, ctx: Context, hops: seq<Hop>): Context {
    if hops == [] then ctx else AcrossHop(c, AcrossHops(c, ctx, hops[..|hops| - 1]), hops[|hops| - 1])
  }

  predicate Foreign(wire: seq<RecordHeader>) {
    forall h :: h in Extracted(wire) ==> !CarriesSession(h)
  }

  /** The first non-empty session header decides. */
  lemma {:induction false} FirstHeaderDecides(c: Codec, headers: seq<Header>, k: nat, ctx: Context)
    requires k < |headers| && CarriesSession(headers[k])
    requires forall j :: 0 <= j < k ==> !CarriesSession(headers[j])
    ensures Restored(c, headers, ctx).user == ctx.user
    ensures Restored(c, headers, ctx).session ==
            if c.parse(headers[k].value).Some? then c.parse(headers[k].value) else ctx.session
  {
    if k > 0 {
      FirstHeaderDecides(c, headers[1..], k - 1, ctx);
    }
  }

  /** Without a valid session header, missing or not to be parsed, the context is left untouched. */
  lemma {:induction false} NoValidHeader(c: Codec, headers: seq<Header>, ctx: Context)
    requires forall h :: h in headers && CarriesSession(h) ==> c.parse(h.value).None?
    ensures Restored(c, headers, ctx) == ctx
  {
    if headers != [] && !CarriesSession(headers[0]) {
      NoValidHeader(c, headers[1..], ctx);
    }
  }

  /** What arrives: the foreign headers before, ours, the foreign headers after. */
  lemma Arrives(c: Codec, ctx: Context, hop: Hop)
    ensures Extracted(hop.before + Converted(ProducerSessionHeaders(c, ctx)) + hop.after)
            == Extracted(hop.before) + (ProducerSessionHeaders(c, ctx) + Extracted(hop.after))
  {
    var ours := ProducerSessionHeaders(c, ctx);
    ExtractedConcat(hop.before + Converted(ours), hop.after);
    ExtractedConcat(hop.before, Converted(ours));
    ExtractionUndoesConversion(ours);
    assert Extracted(hop.before) + ours + Extracted(hop.after) == Extracted(hop.before) + (ours + Extracted(hop.after));
  }

  /** A session crosses one hop, whatever other headers come before it and whatever comes after it. */
  lemma OneHop(c: Codec, ctx: Context, hop: Hop)
    requires Faithful(c) && Foreign(hop.before) && ctx.session.Some? && ctx.session.value != NIL
    ensures AcrossHop(c, ctx, hop) == hop.bare.(session := ctx.session)
  {
    var ours := ProducerSessionHeaders(c, ctx);
    var rest := ours + Extracted(hop.after);
    Arrives(c, ctx, hop);
    SkipForeign(c, Extracted(hop.before), rest, hop.bare);
    assert rest[0] == ours[0] && CarriesSession(ours[0]);
  }

  ghost predicate NoneValid(c: Codec, wire: seq<RecordHeader>) {
    forall h :: h in Extracted(wire) && CarriesSession(h) ==> c.parse(h.value).None?
  }

  /** Without a session, and with no valid header of others, the hop leaves its own context untouched. */
  lemma EmptyHop(c: Codec, ctx: Context, hop: Hop)
    requires (ctx.session.None? || ctx.session.value == NIL) && NoneValid(c, hop.before) && NoneValid(c, hop.after)
    ensures AcrossHop(c, ctx, hop) == hop.bare
  {
    Arrives(c, ctx, hop);
    var all := Extracted(hop.before) + Extracted(hop.after);
    assert ProducerSessionHeaders(c, ctx) + Extracted(hop.after) == Extracted(hop.after);
    NoValidHeader(c, all, hop.bare);
  }

  /**
   * A session survives any number of hops, whatever other headers come before it and whatever follows it.
   */
  lemma {:induction false} SessionSurvives(c: Codec, ctx: Context, hops: seq<Hop>)
    requires Faithful(c) && ctx.session.Some? && ctx.session.value != NIL
    requires forall hop :: hop in hops ==> Foreign(hop.before)
    ensures AcrossHops(c, ctx, hops).session == ctx.session
  {
    if hops != [] {
      var init, last := hops[..|hops| - 1], hops[|hops| - 1];
      SessionSurvives(c, ctx, init);
      assert last in hops;
      OneHop(c, AcrossHops(c, ctx, init), last);
    }
  }
}
