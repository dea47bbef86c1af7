/** Cache breakpoints on Anthropic request bodies: Layout B restamping followed by TTL
    stamping. Fields the two steps never look at are kept as one opaque `rest`. */
module CacheLayout {
  import opened Wrappers

  datatype CacheControl = CacheControl(kind: string, ttl: Option<string>)

  datatype Block = Block(kind: Option<string>, cacheControl: Option<CacheControl>, rest: string)

  /** A `system` or `content` value: an array of blocks, or anything else (a string, absent). */
  datatype Content = Blocks(blocks: seq<Block>) | Other(value: string)

  datatype Message = Message(role: string, content: Content, rest: string)

  datatype Body = Body(system: Content, messages: Option<seq<Message>>, rest: string)

  // ------------------------------------------------------------ restamping

  predicate IsText(b: Block) { b.kind == Some("text") || b.kind == None }

  predicate HasBreakpoint(b: Block) {
    b.cacheControl.Some? && b.cacheControl.value.kind == "ephemeral"
  }

  function Strip(b: Block): Block {
    if HasBreakpoint(b) then b.(cacheControl := None) else b
  }

  function Mark(b: Block): Block {
    if HasBreakpoint(b) then b else b.(cacheControl := Some(CacheControl("ephemeral", None)))
  }

  predicate IsTarget(m: Message) {
    m.role == "user" && m.content.Blocks? && m.content.blocks != []
  }

  /** The last user message with a non-empty block array, -1 when there is none. */
  function LastUser(ms: seq<Message>): (i: int)
    ensures -1 <= i < |ms|
    ensures i >= 0 ==> ms[i].role == "user" && ms[i].content.Blocks? && ms[i].content.blocks != []
    ensures forall j :: i < j < |ms| ==> !(ms[j].role == "user" && ms[j].content.Blocks? && ms[j].content.blocks != [])
  {
    if ms == [] then -1
    else if IsTarget(ms[|ms| - 1]) then |ms| - 1
    else LastUser(ms[..|ms| - 1])
  }

  function RestampBlock(b: Block, wanted: bool): Block {
    if wanted then Mark(b) else Strip(b)
  }

  function RestampBlocks(bs: seq<Block>, target: bool): seq<Block> {
    seq(|bs|, j requires 0 <= j < |bs| => RestampBlock(bs[j], target && j == |bs| - 1))
  }

  function RestampMessage(m: Message, target: bool): Message {
    if m.content.Blocks? then m.(content := Blocks(RestampBlocks(m.content.blocks, target))) else m
  }

  function RestampMessages(ms: seq<Message>): seq<Message> {
    seq(|ms|, i requires 0 <= i < |ms| => RestampMessage(ms[i], i == LastUser(ms)))
  }

  function RestampSystemBlock(b: Block, first: bool): Block {
    if !first then Strip(b) else if IsText(b) then Mark(b) else b
  }

  function RestampSystem(c: Content): Content {
    if c.Blocks? then Blocks(seq(|c.blocks|, j requires 0 <= j < |c.blocks| => RestampSystemBlock(c.blocks[j], j == 0))) else c
  }

  function Restamp(body: Body): Body {
    if body.messages.None? || body.messages.value == [] then body
    else body.(system := RestampSystem(body.system), messages := Some(RestampMessages(body.messages.value)))
  }

  // ------------------------------------------------------------ TTL

  predicate LacksTtl(b: Block) {
    HasBreakpoint(b) && (b.cacheControl.value.ttl == None || b.cacheControl.value.ttl == Some(""))
  }

  function StampBlock(b: Block, ttl: string): Block {
    if LacksTtl(b) then b.(cacheControl := Some(b.cacheControl.value.(ttl := Some(ttl)))) else b
  }

  function StampContent(c: Content, ttl: string): Content {
    if c.Blocks? then Blocks(seq(|c.blocks|, j requires 0 <= j < |c.blocks| => StampBlock(c.blocks[j], ttl))) else c
  }

  function StampMessages(ms: seq<Message>, ttl: string): seq<Message> {
    seq(|ms|, i requires 0 <= i < |ms| => ms[i].(content := StampContent(ms[i].content, ttl)))
  }

  function StampTtl(body: Body, ttl: string): Body {
    body.(system := StampContent(body.system, ttl),
          messages := if body.messages.Some? then Some(StampMessages(body.messages.value, ttl)) else None)
  }

  function Lacking(bs: seq<Block>): nat {
    if bs == [] then 0 else Lacking(bs[..|bs| - 1]) + (if LacksTtl(bs[|bs| - 1]) then 1 else 0)
  }

  function BlocksOf(c: Content): seq<Block> { if c.Blocks? then c.blocks else [] }

  function LackingIn(ms: seq<Message>): nat {
    if ms == [] then 0 else LackingIn(ms[..|ms| - 1]) + Lacking(BlocksOf(ms[|ms| - 1].content))
  }

  // ------------------------------------------------------------ the program's loops

  /** The backward scan for the breakpoint's target. */
  method FindLastUser(ms: seq<Message>) returns (last: int)
    ensures last == LastUser(ms)
  {
    var i := |ms| - 1;
    while i >= 0
      invariant -1 <= i < |ms|
      invariant LastUser(ms) == LastUser(ms[..i + 1])
    {
      assert ms[..i + 1][..i] == ms[..i];
      if IsTarget(ms[i]) { return i; }
      i := i - 1;
    }
    return -1;
  }

  /** Rebuilds one content array; the changed flag is exact. */
  method RebuildBlocks(bs: seq<Block>, target: bool) returns (out: seq<Block>, changed: bool)
    ensures out == RestampBlocks(bs, target)
    ensures changed == (out != bs)
  {
    out, changed := [], false;
    for j := 0 to |bs|
      invariant out == RestampBlocks(bs, target)[..j]
      invariant changed == (out != bs[..j])
    {
      var wanted := target && j == |bs| - 1;
      var b := bs[j];
      if wanted && !HasBreakpoint(b) {
        b, changed := Mark(b), true;
      } else if !wanted && HasBreakpoint(b) {
        b, changed := Strip(b), true;
      }
      assert bs[..j + 1] == bs[..j] + [bs[j]];
      assert b == RestampBlock(bs[j], wanted);
      out := out + [b];
      assert out[j] == b && (changed ==> out != bs[..j + 1]);
    }
    assert bs[..|bs|] == bs && out[..|bs|] == out;
  }

  method RebuildMessages(ms: seq<Message>) returns (out: seq<Message>, changed: bool)
    ensures out == RestampMessages(ms)
    ensures changed == (out != ms)
  {
    var last := FindLastUser(ms);
    out, changed := [], false;
    for i := 0 to |ms|
      invariant out == RestampMessages(ms)[..i]
      invariant changed == (out != ms[..i])
    {
      var m := ms[i];
      if m.content.Blocks? {
        var blocks, blockChanged := RebuildBlocks(m.content.blocks, i == last);
        if blockChanged {
          m, changed := m.(content := Blocks(blocks)), true;
        }
      }
      assert ms[..i + 1] == ms[..i] + [ms[i]];
      ghost var goal := RestampMessages(ms);
      assert m == RestampMessage(ms[i], i == last) == goal[i];
      assert goal[..i + 1] == goal[..i] + [goal[i]];
      out := out + [m];
      assert out[i] == m && (changed ==> out != ms[..i + 1]);
    }
    assert ms[..|ms|] == ms && out[..|ms|] == out;
  }

  method RebuildSystem(c: Content) returns (out: Content, changed: bool)
    ensures out == RestampSystem(c)
    ensures changed == (out != c)
  {
    if !c.Blocks? { return c, false; }
    var bs := c.blocks;
    var rebuilt: seq<Block> := [];
    changed := false;
    for j := 0 to |bs|
      invariant rebuilt == RestampSystem(c).blocks[..j]
      invariant changed == (rebuilt != bs[..j])
    {
      var b := bs[j];
      if j == 0 {
        if IsText(b) && !HasBreakpoint(b) { b, changed := Mark(b), true; }
      } else if HasBreakpoint(b) {
        b, changed := Strip(b), true;
      }
      assert bs[..j + 1] == bs[..j] + [bs[j]];
      assert b == RestampSystemBlock(bs[j], j == 0);
      rebuilt := rebuilt + [b];
      assert rebuilt[j] == b && (changed ==> rebuilt != bs[..j + 1]);
    }
    assert bs[..|bs|] == bs && rebuilt[..|bs|] == rebuilt;
    out := Blocks(rebuilt);
  }

  /** Restamps a body. Callers test "nothing changed" by reference, and that test is exact. */
  method RestampBreakpoints(body: Body) returns (out: Body, changed: bool)
    ensures out == Restamp(body)
    ensures changed == (out != body)
  {
    if body.messages.None? || body.messages.value == [] { return body, false; }
    var ms, msChanged := RebuildMessages(body.messages.value);
    var sys, sysChanged := RebuildSystem(body.system);
    if !msChanged && !sysChanged { return body, false; }
    return body.(system := sys, messages := Some(ms)), true;
  }

  /** A parsed request whose blocks are stamped in place. */
  class Request {
    var system: Content
    var messages: Option<seq<Message>>
    const rest: string

    ghost function State(): Body
      reads this
    {
      Body(system, messages, rest)
    }

    constructor (body: Body)
      ensures State() == body
    {
      system, messages, rest := body.system, body.messages, body.rest;
    }

    static method StampBlocks(bs: seq<Block>, ttl: string) returns (out: seq<Block>, n: nat)
      ensures Blocks(out) == StampContent(Blocks(bs), ttl) && n == Lacking(bs)
    {
      out, n := bs, 0;
      for j := 0 to |bs|
        invariant |out| == |bs| && n == Lacking(bs[..j])
        invariant forall x :: 0 <= x < j ==> out[x] == StampBlock(bs[x], ttl)
        invariant forall x :: j <= x < |bs| ==> out[x] == bs[x]
      {
        assert bs[..j + 1][..j] == bs[..j];
        if LacksTtl(out[j]) {
          out := out[j := out[j].(cacheControl := Some(out[j].cacheControl.value.(ttl := Some(ttl))))];
          n := n + 1;
        }
      }
      assert bs[..|bs|] == bs;
    }

    /** Stamps every breakpoint that lacks a TTL and returns how many there were. */
    method StampCacheTtl(ttl: string) returns (n: nat)
      modifies this
      ensures State() == StampTtl(old(State()), ttl)
      ensures n == Lacking(BlocksOf(old(system))) + (if old(messages).Some? then LackingIn(old(messages).value) else 0)
    {
      n := 0;
      if system.Blocks? {
        var bs, k := StampBlocks(system.blocks, ttl);
        system, n := Blocks(bs), k;
      }
      if messages.Some? {
        var ms := messages.value;
        var first := n;
        for i := 0 to |ms|
          invariant messages.Some? && |messages.value| == |ms| && n == first + LackingIn(ms[..i])
          invariant system == StampContent(old(system), ttl)
          invariant forall x :: 0 <= x < i ==> messages.value[x] == StampMessages(ms, ttl)[x]
          invariant forall x :: i <= x < |ms| ==> messages.value[x] == ms[x]
        {
          assert ms[..i + 1][..i] == ms[..i];
          var m := messages.value[i];
          if m.content.Blocks? {
            var bs, k := StampBlocks(m.content.blocks, ttl);
            messages := Some(messages.value[i := m.(content := Blocks(bs))]);
            n := n + k;
          }
        }
        assert ms[..|ms|] == ms;
        assert messages.value == StampMessages(ms, ttl);
      }
    }
  }

  // ------------------------------------------------------------ what the two steps achieve

  /** The pipeline's first two steps. */
  function Layout(body: Body, ttl: string): Body { StampTtl(Restamp(body), ttl) }

  /** What one block becomes at a place that should or should not carry a breakpoint. */
  lemma BlockOutcome(b: Block, wanted: bool, ttl: string)
    ensures var r := StampBlock(RestampBlock(b, wanted), ttl);
            && (HasBreakpoint(r) <==> wanted)
            && (wanted && ttl != "" ==> !LacksTtl(r))
            && r.(cacheControl := None) == b.(cacheControl := None)
            && (wanted && HasBreakpoint(b) && !LacksTtl(b) ==> r == b)
            && StampBlock(RestampBlock(r, wanted), ttl) == r
  {
  }

  lemma SystemBlockOutcome(b: Block, first: bool, ttl: string)
    ensures var r := StampBlock(RestampSystemBlock(b, first), ttl);
            && (HasBreakpoint(r) <==> first && (IsText(b) || HasBreakpoint(b)))
            && (HasBreakpoint(r) && ttl != "" ==> !LacksTtl(r))
            && r.(cacheControl := None) == b.(cacheControl := None)
            && (first && HasBreakpoint(b) && !LacksTtl(b) ==> r == b)
            && StampBlock(RestampSystemBlock(r, first), ttl) == r
  {
  }

  function EraseContent(c: Content): Content {
    if c.Blocks? then Blocks(seq(|c.blocks|, j requires 0 <= j < |c.blocks| => c.blocks[j].(cacheControl := None))) else c
  }

  /** The body without any cache_control. */
  function Erase(body: Body): Body {
    body.(system := EraseContent(body.system),
          messages := if body.messages.None? then None
                      else Some(seq(|body.messages.value|, i requires 0 <= i < |body.messages.value| =>
                             body.messages.value[i].(content := EraseContent(body.messages.value[i].content)))))
  }

  /** Exactly where the breakpoints are, and that each has a TTL: the first system block
      (when it is text or had one), and the last block of the last user message with a
      non-empty block array. TTLs already set survive there. */
  ghost predicate LayoutB(before: Body, after: Body, ttl: string)
    requires before.messages.Some? && after.messages.Some?
  {
    var ms, ms' := before.messages.value, after.messages.value;
    && |ms'| == |ms| && |BlocksOf(after.system)| == |BlocksOf(before.system)|
    && (forall j :: 0 <= j < |BlocksOf(after.system)| ==>
          SystemPlace(BlocksOf(before.system)[j], BlocksOf(after.system)[j], j == 0, ttl))
    && (forall i :: 0 <= i < |ms'| ==> |BlocksOf(ms'[i].content)| == |BlocksOf(ms[i].content)|)
    && (forall i, j :: 0 <= i < |ms'| && 0 <= j < |BlocksOf(ms'[i].content)| ==>
          Place(BlocksOf(ms[i].content)[j], BlocksOf(ms'[i].content)[j], i == LastUser(ms) && j == |BlocksOf(ms[i].content)| - 1, ttl))
  }

  /** `r` carries a breakpoint with a ttl: the one `b` carried, or a new one. */
  predicate Stamped(b: Block, r: Block, ttl: string) {
    if b.cacheControl.Some? && b.cacheControl.value.kind == "ephemeral" && b.cacheControl.value.ttl.GetOr("") != "" then r == b
    else r == b.(cacheControl := Some(CacheControl("ephemeral", Some(ttl))))
  }

  /** `r` carries no ephemeral cache_control; any other kind is left as it was. */
  predicate Bare(b: Block, r: Block) {
    if b.cacheControl.Some? && b.cacheControl.value.kind == "ephemeral" then r == b.(cacheControl := None) else r == b
  }

  predicate SystemPlace(b: Block, r: Block, first: bool, ttl: string) {
    if first && (b.kind.None? || b.kind.value == "text" || HasBreakpoint(b)) then Stamped(b, r, ttl) else Bare(b, r)
  }

  predicate Place(b: Block, r: Block, wanted: bool, ttl: string) {
    if wanted then Stamped(b, r, ttl) else Bare(b, r)
  }

  lemma BlockPlace(b: Block, wanted: bool, ttl: string)
    requires ttl != ""
    ensures Place(b, StampBlock(RestampBlock(b, wanted), ttl), wanted, ttl)
  {
  }

  lemma SystemBlockPlace(b: Block, first: bool, ttl: string)
    requires ttl != ""
    ensures SystemPlace(b, StampBlock(RestampSystemBlock(b, first), ttl), first, ttl)
  {
  }

  lemma LayoutIsB(body: Body, ttl: string)
    requires body.messages.Some? && body.messages.value != [] && ttl != ""
    ensures LayoutB(body, Layout(body, ttl), ttl)
  {
    var ms, ms' := body.messages.value, Layout(body, ttl).messages.value;
    var sys, sys' := BlocksOf(body.system), BlocksOf(Layout(body, ttl).system);
    forall j | 0 <= j < |sys'| ensures SystemPlace(sys[j], sys'[j], j == 0, ttl) {
      SystemBlockPlace(sys[j], j == 0, ttl);
    }
    forall i, j | 0 <= i < |ms'| && 0 <= j < |BlocksOf(ms'[i].content)|
      ensures Place(BlocksOf(ms[i].content)[j], BlocksOf(ms'[i].content)[j], i == LastUser(ms) && j == |BlocksOf(ms[i].content)| - 1, ttl)
    {
      BlockPlace(BlocksOf(ms[i].content)[j], i == LastUser(ms) && j == |BlocksOf(ms[i].content)| - 1, ttl);
    }
  }

  /** `r` is `b`, with the ttl filled in where an ephemeral cache_control has none. */
  predicate OnlyTtl(b: Block, r: Block, ttl: string) {
    if b.cacheControl.Some? && b.cacheControl.value.kind == "ephemeral" && b.cacheControl.value.ttl.GetOr("") == ""
    then r == b.(cacheControl := Some(CacheControl("ephemeral", Some(ttl)))) else r == b
  }

  /** Without messages no breakpoint moves: the body leaves as it came but for missing ttls. */
  lemma NoMessagesNoRestamp(body: Body, ttl: string)
    requires body.messages.None? || body.messages.value == []
    ensures var out := Layout(body, ttl);
            && out == body.(system := out.system) && out.system.Blocks? == body.system.Blocks?
            && (!body.system.Blocks? ==> out == body)
            && |BlocksOf(out.system)| == |BlocksOf(body.system)|
            && forall j :: 0 <= j < |BlocksOf(body.system)| ==> OnlyTtl(BlocksOf(body.system)[j], BlocksOf(out.system)[j], ttl)
  {
    assert body.messages.Some? ==> StampMessages(body.messages.value, ttl) == [];
  }

  /** Nothing but cache_control is ever touched. */
  lemma LayoutTouchesOnlyCacheControl(body: Body, ttl: string)
    ensures Erase(Layout(body, ttl)) == Erase(body)
  {
    var out := Layout(body, ttl);
    assert EraseContent(out.system) == EraseContent(body.system);
    if body.messages.Some? {
      var ms, ms' := body.messages.value, out.messages.value;
      forall i | 0 <= i < |ms| ensures ms'[i].(content := EraseContent(ms'[i].content)) == ms[i].(content := EraseContent(ms[i].content)) {
        assert EraseContent(ms'[i].content) == EraseContent(ms[i].content);
      }
      assert Erase(out).messages.value == Erase(body).messages.value;
    }
  }

  lemma {:induction false} LastUserKept(ms: seq<Message>, ms': seq<Message>)
    requires |ms'| == |ms|
    requires forall i :: 0 <= i < |ms| ==> IsTarget(ms'[i]) == IsTarget(ms[i])
    ensures LastUser(ms') == LastUser(ms)
  {
    if ms != [] && !IsTarget(ms[|ms| - 1]) { LastUserKept(ms[..|ms| - 1], ms'[..|ms| - 1]); }
  }

  lemma ContentIdempotent(bs: seq<Block>, target: bool, ttl: string)
    ensures var once := StampContent(Blocks(RestampBlocks(bs, target)), ttl).blocks;
            StampContent(Blocks(RestampBlocks(once, target)), ttl).blocks == once
  {
    var once := StampContent(Blocks(RestampBlocks(bs, target)), ttl).blocks;
    forall j | 0 <= j < |bs| ensures StampBlock(RestampBlock(once[j], target && j == |bs| - 1), ttl) == once[j] {
      BlockOutcome(bs[j], target && j == |bs| - 1, ttl);
    }
  }

  lemma SystemIdempotent(c: Content, ttl: string)
    ensures StampContent(RestampSystem(StampContent(RestampSystem(c), ttl)), ttl) == StampContent(RestampSystem(c), ttl)
  {
    if c.Blocks? {
      var once := StampContent(RestampSystem(c), ttl).blocks;
      forall j | 0 <= j < |once| ensures StampBlock(RestampSystemBlock(once[j], j == 0), ttl) == once[j] {
        SystemBlockOutcome(c.blocks[j], j == 0, ttl);
      }
      assert StampContent(RestampSystem(Blocks(once)), ttl).blocks == once;
    }
  }

  lemma MessagesIdempotent(ms: seq<Message>, ttl: string)
    ensures StampMessages(RestampMessages(StampMessages(RestampMessages(ms), ttl)), ttl) == StampMessages(RestampMessages(ms), ttl)
  {
    var once := StampMessages(RestampMessages(ms), ttl);
    LastUserKept(ms, once);
    var twice := StampMessages(RestampMessages(once), ttl);
    forall i | 0 <= i < |ms| ensures twice[i] == once[i] {
      if ms[i].content.Blocks? { ContentIdempotent(ms[i].content.blocks, i == LastUser(ms), ttl); }
    }
  }

  lemma StampIdempotent(c: Content, ttl: string)
    ensures StampContent(StampContent(c, ttl), ttl) == StampContent(c, ttl)
  {
  }

  /** Applying the two steps again changes nothing, whatever the body looks like. */
  lemma LayoutIdempotent(body: Body, ttl: string)
    ensures Layout(Layout(body, ttl), ttl) == Layout(body, ttl)
  {
    StampIdempotent(body.system, ttl);
    if body.messages.Some? && body.messages.value != [] {
      SystemIdempotent(body.system, ttl);
      MessagesIdempotent(body.messages.value, ttl);
    }
  }

  // ------------------------------------------------------------ how many were stamped

  /** Every block of a body: those of the system prompt, then message by message. */
  function BlocksOfMessages(ms: seq<Message>): seq<Block> {
    if ms == [] then [] else BlocksOfMessages(ms[..|ms| - 1]) + BlocksOf(ms[|ms| - 1].content)
  }

  function AllBlocks(body: Body): seq<Block> {
    BlocksOf(body.system) + (if body.messages.Some? then BlocksOfMessages(body.messages.value) else [])
  }

  lemma {:induction false} LackingAdds(a: seq<Block>, b: seq<Block>)
    ensures Lacking(a + b) == Lacking(a) + Lacking(b)
  {
    if b == [] {
      assert a + b == a;
    } else {
      assert (a + b)[..|a + b| - 1] == a + b[..|b| - 1];
      LackingAdds(a, b[..|b| - 1]);
    }
  }

  lemma {:induction false} LackingInFlattens(ms: seq<Message>)
    ensures LackingIn(ms) == Lacking(BlocksOfMessages(ms))
  {
    if ms != [] {
      LackingInFlattens(ms[..|ms| - 1]);
      LackingAdds(BlocksOfMessages(ms[..|ms| - 1]), BlocksOf(ms[|ms| - 1].content));
    }
  }

  ghost function WithoutTtl(bs: seq<Block>): set<int> {
    set j | 0 <= j < |bs| && LacksTtl(bs[j])
  }

  lemma {:induction false} LackingIsCount(bs: seq<Block>)
    ensures Lacking(bs) == |WithoutTtl(bs)|
  {
    if bs != [] {
      var init, n := bs[..|bs| - 1], |bs| - 1;
      LackingIsCount(init);
      assert WithoutTtl(bs) == WithoutTtl(init) + (if LacksTtl(bs[n]) then {n} else {});
    }
  }

  /** The number that the TTL step reports: the breakpoints of the whole body that had no ttl. */
  lemma StampedIsCount(body: Body)
    ensures var all := AllBlocks(body);
            Lacking(BlocksOf(body.system)) + (if body.messages.Some? then LackingIn(body.messages.value) else 0)
            == |set j | 0 <= j < |all| && HasBreakpoint(all[j]) && all[j].cacheControl.value.ttl.GetOr("") == ""|
  {
    var all := AllBlocks(body);
    LackingIsCount(all);
    assert WithoutTtl(all) == set j | 0 <= j < |all| && HasBreakpoint(all[j]) && all[j].cacheControl.value.ttl.GetOr("") == "";
    if body.messages.Some? {
      LackingInFlattens(body.messages.value);
      LackingAdds(BlocksOf(body.system), BlocksOfMessages(body.messages.value));
    } else {
      assert AllBlocks(body) == BlocksOf(body.system);
    }
  }

  // ------------------------------------------------------------ at most two breakpoints

  function Breakpoints(bs: seq<Block>): nat {
    if bs == [] then 0 else Breakpoints(bs[..|bs| - 1]) + (if HasBreakpoint(bs[|bs| - 1]) then 1 else 0)
  }

  function BreakpointsIn(ms: seq<Message>): nat {
    if ms == [] then 0 else BreakpointsIn(ms[..|ms| - 1]) + Breakpoints(BlocksOf(ms[|ms| - 1].content))
  }

  /** A list whose only possible breakpoint is at `at` has one exactly when it is there. */
  lemma {:induction false} OnlyAt(bs: seq<Block>, at: int)
    requires forall j :: 0 <= j < |bs| && HasBreakpoint(bs[j]) ==> j == at
    ensures Breakpoints(bs) == if 0 <= at < |bs| && HasBreakpoint(bs[at]) then 1 else 0
  {
    if bs != [] { OnlyAt(bs[..|bs| - 1], at); }
  }

  lemma {:induction false} OnlyInMessage(ms: seq<Message>, at: int)
    requires forall i :: 0 <= i < |ms| && i != at ==> Breakpoints(BlocksOf(ms[i].content)) == 0
    ensures BreakpointsIn(ms) == if 0 <= at < |ms| then Breakpoints(BlocksOf(ms[at].content)) else 0
  {
    if ms != [] { OnlyInMessage(ms[..|ms| - 1], at); }
  }

  /** The result carries at most two breakpoints, and exactly one in the messages whenever
      some user message has a non-empty block array. */
  lemma AtMostTwoBreakpoints(body: Body, ttl: string)
    requires body.messages.Some? && body.messages.value != []
    ensures var out := Layout(body, ttl);
            && Breakpoints(BlocksOf(out.system)) <= 1
            && BreakpointsIn(out.messages.value) == (if LastUser(body.messages.value) >= 0 then 1 else 0)
  {
    var ms := body.messages.value;
    var out := Layout(body, ttl);
    var ms', sys, sys' := out.messages.value, BlocksOf(body.system), BlocksOf(out.system);
    var last := LastUser(ms);
    forall j | 0 <= j < |sys'| && HasBreakpoint(sys'[j]) ensures j == 0 {
      SystemBlockOutcome(sys[j], j == 0, ttl);
    }
    OnlyAt(sys', 0);
    forall i | 0 <= i < |ms| ensures Breakpoints(BlocksOf(ms'[i].content)) == if i == last then 1 else 0 {
      var bs, bs' := BlocksOf(ms[i].content), BlocksOf(ms'[i].content);
      forall j | 0 <= j < |bs| ensures HasBreakpoint(bs'[j]) <==> i == last && j == |bs| - 1 {
        BlockOutcome(bs[j], i == last && j == |bs| - 1, ttl);
      }
      OnlyAt(bs', |bs| - 1);
    }
    OnlyInMessage(ms', last);
  }

  /** The ttl the program stamps. */
  const TTL := "1h"

  const STALE := Some(CacheControl("ephemeral", None))
  const FRESH := Some(CacheControl("ephemeral", Some("1h")))
  const PROMPT := Block(Some("text"), None, "prompt")
  const HELLO := Block(Some("text"), STALE, "hello")
  const CALL := Block(Some("tool_use"), STALE, "call")
  const RESULT := Block(Some("tool_result"), None, "result")

  /** A small request through both steps: the stale breakpoints go, and the system prompt and the
      last block of the last user turn carry one of an hour. */
  lemma LayoutOfSmallRequest()
    ensures Layout(Body(Blocks([PROMPT]), Some([Message("user", Blocks([HELLO, RESULT]), ""), Message("assistant", Blocks([CALL]), "")]), ""), TTL)
            == Body(Blocks([PROMPT.(cacheControl := FRESH)]),
                    Some([Message("user", Blocks([HELLO.(cacheControl := None), RESULT.(cacheControl := FRESH)]), ""),
                          Message("assistant", Blocks([CALL.(cacheControl := None)]), "")]), "")
  {
    var ms := [Message("user", Blocks([HELLO, RESULT]), ""), Message("assistant", Blocks([CALL]), "")];
    assert LastUser(ms) == 0;
    var none, tip, bare := HELLO.(cacheControl := None), RESULT.(cacheControl := STALE), CALL.(cacheControl := None);
    assert RestampBlocks([HELLO, RESULT], true) == [none, tip];
    assert RestampBlocks([CALL], false) == [bare];
    assert RestampMessages(ms) == [ms[0].(content := Blocks([none, tip])), ms[1].(content := Blocks([bare]))];
    assert StampContent(Blocks([none, tip]), TTL) == Blocks([none, RESULT.(cacheControl := FRESH)]);
    assert StampContent(Blocks([bare]), TTL) == Blocks([bare]);
    var restamped := RestampMessages(ms);
    assert StampMessages(restamped, TTL) ==
           [ms[0].(content := Blocks([none, RESULT.(cacheControl := FRESH)])), ms[1].(content := Blocks([bare]))];
    assert RestampSystem(Blocks([PROMPT])) == Blocks([PROMPT.(cacheControl := STALE)]);
    assert StampContent(Blocks([PROMPT.(cacheControl := STALE)]), TTL) == Blocks([PROMPT.(cacheControl := FRESH)]);
  }
}
