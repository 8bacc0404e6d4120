/**
  Promise chain engine.

  A Promise is one link of a singly-owned forward chain: `next` is the
  successor created by `then:`, `prev` points back to the predecessor.
  A promise is settled once (resolved with an object, or rejected with
  an NSError); when a settled promise has a successor, its blocks are
  dispatched and whatever the block returns settles the successor.
  Dispatch on a GCD queue is modelled as an explicit, deterministic
  step (`Fire` for one link, `Drive` for a whole chain).
*/
module Promises {

  datatype Option<T> = None | Some(value: T)

  /** An NSError as built by getError: a numeric code and a description. */
  datatype NSError = NSError(code: int, description: string)

  /** The `id` objects a promise is resolved with, or a block returns.
      `Err` stands for an NSError instance, `Obj` for any other object. */
  datatype Value = Nil | Obj(id: int) | Err(error: NSError)

  /** The settlement of a promise. */
  datatype State = Pending | Resolved(value: Value) | Rejected(error: NSError)

  /** The blocks attached by then: / then:error:. A promise without a
      successor has none. */
  datatype Blocks =
    | NoBlocks
    | Blocks(onSuccess: Value -> Value, onError: Option<NSError -> Value>)

  /** The global dispatch queue a promise's blocks run on. */
  datatype Queue = MainQueue | DefaultPriority | LowPriority | HighPriority

  /** A fault a dispatch pass reports (a debug build raises an exception):
      the firing of link `link - 1` tried to settle link `link` a second
      time, or an error was delivered to the end of the chain without any
      error block having handled it. */
  datatype Fault = SettledTwice(link: nat) | Unhandled(error: NSError)

  /** The state `resolve:` gives a pending promise: an NSError takes the
      error path, every other object the success path. */
  function Settle(v: Value): (s: State)
    ensures s != Pending
    ensures s.Rejected? <==> v.Err?
    ensures s.Rejected? ==> s.error == v.error
    ensures s.Resolved? ==> s.value == v
  {
    if v.Err? then Rejected(v.error) else Resolved(v)
  }

  /** A resolve delivered to a promise that is already settled changes nothing. */
  function Deliver(current: State, incoming: State): State
  {
    if current.Pending? then incoming else current
  }

  /** The object handed to the successor's `resolve:` when a settled
      promise fires: the success block's result, the error block's result,
      or, when the error block was omitted, the error itself. */
  function Reply(s: State, b: Blocks): Value
    requires s != Pending && b.Blocks?
  {
    match s
    case Resolved(v) => b.onSuccess(v)
    case Rejected(e) => if b.onError.Some? then b.onError.value(e) else Err(e)
  }

  /** The state the successor takes when a settled promise fires. */
  function Handle(s: State, b: Blocks): (r: State)
    requires s != Pending && b.Blocks?
    ensures r != Pending
  {
    Settle(Reply(s, b))
  }

  /** The success block never runs on the error path. */
  lemma ErrorPathIgnoresSuccessBlock(e: NSError, s1: Value -> Value, s2: Value -> Value,
                                     onError: Option<NSError -> Value>)
    ensures Handle(Settle(Err(e)), Blocks(s1, onError)) == Handle(Settle(Err(e)), Blocks(s2, onError))
  {
  }

  /** The error block never runs on the success path. */
  lemma SuccessPathIgnoresErrorBlock(v: Value, success: Value -> Value,
                                     e1: Option<NSError -> Value>, e2: Option<NSError -> Value>)
    requires !v.Err?
    ensures Handle(Settle(v), Blocks(success, e1)) == Handle(Settle(v), Blocks(success, e2))
    ensures Handle(Settle(v), Blocks(success, e1)) == Settle(success(v))
  {
  }

  /** Without an error block, an error cascades unchanged. */
  lemma MissingErrorBlockCascades(e: NSError, success: Value -> Value)
    ensures Handle(Rejected(e), Blocks(success, None)) == Rejected(e)
  {
  }

  // The chain as a sequence of settlements: `Flow(s, bs)` lists the
  // state of every link of a chain whose head is settled with `s` and
  // whose links carry the blocks `bs`, once every link has fired.

  ghost predicate AllHaveBlocks(bs: seq<Blocks>)
  {
    forall k :: 0 <= k < |bs| ==> bs[k].Blocks?
  }

  function Flow(s: State, bs: seq<Blocks>): (r: seq<State>)
    requires s != Pending && AllHaveBlocks(bs)
    ensures |r| == |bs| + 1 && r[0] == s
    decreases |bs|
  {
    if bs == [] then [s] else [s] + Flow(Handle(s, bs[0]), bs[1..])
  }

  /** Each link is settled by its predecessor's blocks, and no link of the
      chain is left pending. */
  lemma {:induction false} FlowStep(s: State, bs: seq<Blocks>, k: nat)
    requires s != Pending && AllHaveBlocks(bs)
    requires k < |bs|
    ensures Flow(s, bs)[k] != Pending
    ensures Flow(s, bs)[k + 1] == Handle(Flow(s, bs)[k], bs[k])
    decreases k
  {
    if k > 0 {
      FlowStep(Handle(s, bs[0]), bs[1..], k - 1);
    }
  }

  /** An error travels unchanged past every link without an error block. */
  lemma {:induction false} CascadeUnchanged(e: NSError, bs: seq<Blocks>, k: nat)
    requires AllHaveBlocks(bs)
    requires k <= |bs|
    requires forall j :: 0 <= j < k ==> bs[j].onError.None?
    ensures Flow(Rejected(e), bs)[k] == Rejected(e)
    decreases k
  {
    if k > 0 {
      CascadeUnchanged(e, bs, k - 1);
      FlowStep(Rejected(e), bs, k - 1);
    }
  }

  /** The first error block after the failing link receives the very
      error, and its returned object settles the following link. */
  lemma FirstErrorBlockReceives(e: NSError, bs: seq<Blocks>, k: nat)
    requires AllHaveBlocks(bs)
    requires k < |bs|
    requires forall j :: 0 <= j < k ==> bs[j].onError.None?
    requires bs[k].onError.Some?
    ensures Flow(Rejected(e), bs)[k + 1] == Settle(bs[k].onError.value(e))
  {
    CascadeUnchanged(e, bs, k);
    FlowStep(Rejected(e), bs, k);
  }

  /** An error that no link handles reaches the end of the chain. */
  lemma UnhandledReachesTail(e: NSError, bs: seq<Blocks>)
    requires AllHaveBlocks(bs)
    requires forall j :: 0 <= j < |bs| ==> bs[j].onError.None?
    ensures Flow(Rejected(e), bs)[|bs|] == Rejected(e)
  {
    CascadeUnchanged(e, bs, |bs|);
  }

  // One dispatch pass over a chain, on the abstract view of its links.

  /** What a dispatch pass sees of one link. */
  datatype Link = Link(state: State, blocks: Blocks, fired: bool)

  /** A link fires when it is settled, has a successor (and so blocks)
      and has not fired yet. */
  predicate Triggered(l: Link)
  {
    l.state != Pending && l.blocks.Blocks? && !l.fired
  }

  /** Walk the chain from head to tail, firing every triggered link; a
      link fired on the way may trigger the next one. The last link has
      no successor and never fires. */
  function Run(ls: seq<Link>): (r: seq<Link>)
    ensures |r| == |ls|
    decreases |ls|
  {
    if |ls| < 2 then ls else [Fired(ls[0])] + Run(Advance(ls))
  }

  /** A link after the dispatcher's visit: marked fired if it was ready. */
  function Fired(l: Link): Link
  {
    if Triggered(l) then l.(fired := true) else l
  }

  /** The links after the first one once the first has been visited: if it
      fired, its successor received what its blocks returned. */
  function Advance(ls: seq<Link>): (r: seq<Link>)
    requires |ls| >= 2
    ensures |r| == |ls| - 1
  {
    if Triggered(ls[0]) then
      [ls[1].(state := Deliver(ls[1].state, Handle(ls[0].state, ls[0].blocks)))] + ls[2..]
    else
      ls[1..]
  }

  /** The faults raised by visiting the first of the links `ls`, which is
      link `at` of the chain: a successor already settled refuses the
      firing, and an error delivered to a pending tail is unhandled. */
  function StepFaults(ls: seq<Link>, at: nat): seq<Fault>
    requires |ls| >= 2
  {
    if !Triggered(ls[0]) then []
    else if !ls[1].state.Pending? then [SettledTwice(at + 1)]
    else
      var out := Handle(ls[0].state, ls[0].blocks);
      if |ls| == 2 && out.Rejected? then [Unhandled(out.error)] else []
  }

  /** The faults of a whole dispatch pass over `ls`, whose first link is
      link `at` of the chain, in the order they are raised. */
  function Faults(ls: seq<Link>, at: nat): seq<Fault>
    decreases |ls|
  {
    if |ls| < 2 then [] else StepFaults(ls, at) + Faults(Advance(ls), at + 1)
  }

  function BlocksOf(ls: seq<Link>): (bs: seq<Blocks>)
    ensures |bs| == |ls|
    ensures forall k :: 0 <= k < |ls| ==> bs[k] == ls[k].blocks
  {
    seq(|ls|, k requires 0 <= k < |ls| => ls[k].blocks)
  }

  /** A chain built with then: whose head has just been settled: only the
      head is settled, nothing has fired, every link but the tail has blocks. */
  ghost predicate JustSettled(ls: seq<Link>)
  {
    |ls| >= 1 && ls[0].state != Pending &&
    (forall k :: 1 <= k < |ls| ==> ls[k].state.Pending?) &&
    (forall k :: 0 <= k < |ls| ==> !ls[k].fired) &&
    (forall k :: 0 <= k < |ls| - 1 ==> ls[k].blocks.Blocks?)
  }

  /** A single settlement at the head of a chain makes every link but the
      tail fire exactly once, in head-to-tail order, and leaves each link in
      the state `Flow` gives it. */
  lemma {:induction false} RunFollowsFlow(ls: seq<Link>)
    requires JustSettled(ls)
    ensures AllHaveBlocks(BlocksOf(ls[..|ls| - 1]))
    ensures forall k :: 0 <= k < |ls| ==>
      Run(ls)[k].state == Flow(ls[0].state, BlocksOf(ls[..|ls| - 1]))[k] &&
      Run(ls)[k].fired == (k < |ls| - 1) &&
      Run(ls)[k].blocks == ls[k].blocks
    decreases |ls|
  {
    if |ls| >= 2 {
      var rest := Advance(ls);
      SettledStep(ls);
      RunFollowsFlow(rest);
      var r := Run(rest);
      var f := Flow(rest[0].state, BlocksOf(rest[..|rest| - 1]));
      var run := Run(ls);
      var flow := Flow(ls[0].state, BlocksOf(ls[..|ls| - 1]));
      assert run == [Fired(ls[0])] + r;
      assert flow == [ls[0].state] + f;
      forall k | 0 <= k < |ls|
        ensures run[k].state == flow[k] && run[k].fired == (k < |ls| - 1) && run[k].blocks == ls[k].blocks
      {
        if k > 0 {
          assert run[k] == r[k - 1] && flow[k] == f[k - 1];
          assert rest[k - 1].blocks == ls[k].blocks;
        }
      }
    }
  }

  /** A single settlement at the head raises no `SettledTwice`; the pass
      reports `Unhandled` exactly when the chain has a successor to deliver
      to and the error reaching the tail is a rejection. */
  lemma {:induction false} FaultsFollowFlow(ls: seq<Link>, at: nat)
    requires JustSettled(ls)
    ensures AllHaveBlocks(BlocksOf(ls[..|ls| - 1]))
    ensures var tail := Flow(ls[0].state, BlocksOf(ls[..|ls| - 1]))[|ls| - 1];
      Faults(ls, at) == if |ls| >= 2 && tail.Rejected? then [Unhandled(tail.error)] else []
    decreases |ls|
  {
    if |ls| >= 2 {
      var rest := Advance(ls);
      SettledStep(ls);
      FaultsFollowFlow(rest, at + 1);
    }
  }

  /** After a single settlement at the head, the visit to the head fires
      it into its pending successor, and what is left is again a chain
      whose head has just been settled, one link shorter in `Flow`. */
  lemma SettledStep(ls: seq<Link>)
    requires JustSettled(ls) && |ls| >= 2
    ensures Triggered(ls[0]) && ls[1].state.Pending?
    ensures JustSettled(Advance(ls))
    ensures Advance(ls)[0].state == Handle(ls[0].state, ls[0].blocks)
    ensures AllHaveBlocks(BlocksOf(ls[..|ls| - 1]))
    ensures forall k :: 1 <= k < |ls| ==> Advance(ls)[k - 1].blocks == ls[k].blocks
    ensures Flow(ls[0].state, BlocksOf(ls[..|ls| - 1])) ==
      [ls[0].state] + Flow(Advance(ls)[0].state, BlocksOf(Advance(ls)[..|ls| - 2]))
  {
    var bs := BlocksOf(ls[..|ls| - 1]);
    var rest := Advance(ls);
    assert JustSettled(rest);
    assert BlocksOf(rest[..|rest| - 1]) == bs[1..];
  }

  // The Promise object.

  class Promise {
    /** the successor, owned by this promise (strong) */
    var next: Promise?
    /** the predecessor (weak) */
    var prev: Promise?
    var queue: Queue
    var name: string
    var state: State
    var blocks: Blocks
    /** whether the blocks have been dispatched */
    var fired: bool

    /** Blocks are attached exactly when the successor is created, and a
        promise fires only once it is settled and has a successor. */
    ghost predicate Valid()
      reads this
    {
      (next == null <==> blocks.NoBlocks?) &&
      (fired ==> state != Pending && next != null)
    }

    function View(): Link
      reads this
    {
      Link(state, blocks, fired)
    }

    /** promiseWithName: */
    constructor Named(name: string)
      ensures Valid()
      ensures this.name == name && state == Pending
      ensures next == null && prev == null && blocks.NoBlocks? && !fired
      ensures queue == DefaultPriority
    {
      this.name := name;
      next, prev := null, null;
      queue := DefaultPriority;
      state := Pending;
      blocks := NoBlocks;
      fired := false;
    }

    /** resolvedWith: a promise already resolved with `result`; it does not
        fire until a successor is attached. */
    constructor ResolvedWith(result: Value)
      ensures Valid()
      ensures state == Settle(result) && !Triggered(View())
      ensures next == null && prev == null && blocks.NoBlocks? && !fired
      ensures queue == DefaultPriority && name == ""
    {
      name := "";
      next, prev := null, null;
      queue := DefaultPriority;
      state := Settle(result);
      blocks := NoBlocks;
      fired := false;
    }

    /** resolvedWithError:description: a promise already rejected with the
        error built from `code` and `desc`. */
    constructor ResolvedWithError(code: int, desc: string)
      ensures Valid()
      ensures state == Rejected(GetError(code, desc)) && !Triggered(View())
      ensures state.error.code == code && state.error.description == desc
      ensures next == null && prev == null && blocks.NoBlocks? && !fired
      ensures queue == DefaultPriority && name == ""
    {
      name := "";
      next, prev := null, null;
      queue := DefaultPriority;
      state := Rejected(GetError(code, desc));
      blocks := NoBlocks;
      fired := false;
    }

    /** getError:description: */
    static function GetError(code: int, desc: string): (e: NSError)
      ensures e.code == code && e.description == desc
    {
      NSError(code, desc)
    }

    /** resolve: settles a pending promise with `result`; an NSError takes
        the error path. A promise already settled is left alone, and
        `accepted` is false (a protocol violation). */
    method Resolve(result: Value) returns (accepted: bool)
      requires Valid()
      modifies this
      ensures Valid()
      ensures accepted == old(state).Pending?
      ensures state == Deliver(old(state), Settle(result))
      ensures next == old(next) && prev == old(prev) && blocks == old(blocks)
      ensures fired == old(fired) && queue == old(queue) && name == old(name)
    {
      accepted := state.Pending?;
      if accepted {
        state := Settle(result);
      }
    }

    /** reject:description: is resolve: with the error built by getError. */
    method Reject(code: int, desc: string) returns (accepted: bool)
      requires Valid()
      modifies this
      ensures Valid()
      ensures accepted == old(state).Pending?
      ensures state == Deliver(old(state), Rejected(GetError(code, desc)))
      ensures next == old(next) && prev == old(prev) && blocks == old(blocks)
      ensures fired == old(fired) && queue == old(queue) && name == old(name)
    {
      accepted := Resolve(Err(GetError(code, desc)));
    }

    /** then:error: attaches the blocks, creates the successor, links it
        both ways and returns it. A settled promise becomes ready to fire
        at once. */
    method ThenError(onSuccess: Value -> Value, onError: Option<NSError -> Value>) returns (p: Promise)
      requires Valid() && next == null
      modifies this
      ensures Valid() && p.Valid() && fresh(p)
      ensures next == p && p.prev == this
      ensures blocks == Blocks(onSuccess, onError)
      ensures p.state == Pending && p.next == null && p.blocks.NoBlocks? && !p.fired
      ensures p.queue == DefaultPriority && p.name == ""
      ensures Triggered(View()) <==> state != Pending
      ensures state == old(state) && fired == old(fired) && prev == old(prev)
      ensures queue == old(queue) && name == old(name)
    {
      p := new Promise.Named("");
      p.prev := this;
      next := p;
      blocks := Blocks(onSuccess, onError);
    }

    /** then: is then:error: without an error block, so errors cascade. */
    method Then(onSuccess: Value -> Value) returns (p: Promise)
      requires Valid() && next == null
      modifies this
      ensures Valid() && p.Valid() && fresh(p)
      ensures next == p && p.prev == this
      ensures blocks == Blocks(onSuccess, None)
      ensures p.state == Pending && p.next == null && p.blocks.NoBlocks? && !p.fired
      ensures p.queue == DefaultPriority && p.name == ""
      ensures Triggered(View()) <==> state != Pending
      ensures state == old(state) && fired == old(fired) && prev == old(prev)
      ensures queue == old(queue) && name == old(name)
    {
      p := ThenError(onSuccess, None);
    }

    /** The dispatched blocks run: the object returned by the block that
        applies (or the cascading error) resolves the successor. */
    method Fire() returns (accepted: bool)
      requires Valid() && Triggered(View())
      requires next != null && next != this && next.Valid()
      modifies this, next
      ensures Valid() && next != null && next.Valid() && fired
      ensures accepted == old(next.state).Pending?
      ensures next.state == Deliver(old(next.state), Handle(old(state), blocks))
      ensures state == old(state) && blocks == old(blocks) && next == old(next)
      ensures prev == old(prev) && queue == old(queue) && name == old(name)
      ensures next.next == old(next.next) && next.prev == old(next.prev)
      ensures next.blocks == old(next.blocks) && next.fired == old(next.fired)
      ensures next.queue == old(next.queue) && next.name == old(next.name)
    {
      var result := Reply(state, blocks);
      fired := true;
      accepted := next.Resolve(result);
    }

    /** runOnMainQueue */
    method RunOnMainQueue()
      modifies this`queue
      ensures queue == MainQueue && WillRunOnMainQueue()
    {
      queue := MainQueue;
    }

    /** willRunOnMainQueue: whether this promise's blocks run on the main queue. */
    predicate WillRunOnMainQueue(): (onMain: bool)
      reads this
      ensures onMain <==> queue == MainQueue
      ensures onMain ==> queue != DefaultPriority && queue != LowPriority && queue != HighPriority
    {
      queue == MainQueue
    }

    /** runDefault */
    method RunDefault()
      modifies this`queue
      ensures queue == DefaultPriority && !WillRunOnMainQueue()
    {
      queue := DefaultPriority;
    }

    /** runLowPriority */
    method RunLowPriority()
      modifies this`queue
      ensures queue == LowPriority && !WillRunOnMainQueue()
    {
      queue := LowPriority;
    }

    /** runHighPriority */
    method RunHighPriority()
      modifies this`queue
      ensures queue == HighPriority && !WillRunOnMainQueue()
    {
      queue := HighPriority;
    }

    /** The dispatcher's visit to link `i` of `links`: the link fires if
        it is ready; only this link and its successor change. The faults
        it raises are those `StepFaults` gives. */
    method Visit(ghost links: seq<Promise>, i: nat) returns (faults: seq<Fault>)
      requires Chain(links) && i + 1 < |links| && links[i] == this
      modifies this, next
      ensures Chain(links)
      ensures DispatchedAt(old(Views(links)), Views(links), i)
      ensures faults == StepFaults(old(Views(links))[i..], i)
      ensures Shape(links) == old(Shape(links))
    {
      assert next == links[i + 1] && next.Valid();
      assert i + 2 < |links| ==> next.next == links[i + 2];
      ghost var before := Views(links)[i..];
      assert before[0] == View() && before[1] == next.View();
      assert |before| == 2 <==> next.next == null;
      faults := [];
      if Triggered(View()) {
        var atTail := next.next == null;
        var accepted := Fire();
        if !accepted {
          faults := [SettledTwice(i + 1)];
        } else if atTail && next.state.Rejected? {
          faults := [Unhandled(next.state.error)];
        }
      }
    }

    /** One dispatch pass from this promise down to the end of its chain
        `links`: every link that is ready fires, in order, leaving the
        links as `Run` says, and the faults raised are those `Faults` gives. */
    method Drive(ghost links: seq<Promise>) returns (faults: seq<Fault>)
      requires Chain(links) && links[0] == this
      modifies set p | p in links
      ensures Chain(links)
      ensures Views(links) == Run(old(Views(links)))
      ensures faults == Faults(old(Views(links)), 0)
      ensures forall j :: 0 <= j < |links| ==>
        links[j].next == old(links[j].next) && links[j].prev == old(links[j].prev) &&
        links[j].queue == old(links[j].queue) && links[j].name == old(links[j].name)
    {
      var cur := this;
      var i := 0;
      ghost var start := Views(links);
      ghost var shape := Shape(links);
      faults := [];
      while cur.next != null
        invariant 0 <= i < |links| && cur == links[i]
        invariant Chain(links)
        invariant Shape(links) == shape
        invariant Run(start) == Views(links)[..i] + Run(Views(links)[i..])
        invariant Faults(start, 0) == faults + Faults(Views(links)[i..], i)
        decreases |links| - i
      {
        ghost var before := Views(links);
        assert cur.next == links[i + 1];
        var step := cur.Visit(links, i);
        PassStep(start, before, Views(links), i, faults, step);
        faults := faults + step;
        cur := cur.next;
        i := i + 1;
      }
      PassEnd(start, Views(links), i, faults);
      forall j | 0 <= j < |links|
        ensures links[j].next == old(links[j].next) && links[j].prev == old(links[j].prev)
        ensures links[j].queue == old(links[j].queue) && links[j].name == old(links[j].name)
      {
        assert Shape(links)[j] == shape[j];
      }
    }
  }

  /** `links` is a whole chain from its first link to its tail: distinct
      promises, each the `next` of the one before and pointing back to it. */
  ghost predicate Chain(links: seq<Promise>)
    reads set p | p in links
  {
    |links| >= 1 &&
    (forall j, k :: 0 <= j < k < |links| ==> links[j] != links[k]) &&
    (forall j :: 0 <= j < |links| ==> links[j].Valid()) &&
    (forall j :: 0 <= j < |links| - 1 ==> links[j].next == links[j + 1] && links[j + 1].prev == links[j]) &&
    links[|links| - 1].next == null
  }

  ghost function Views(links: seq<Promise>): (vs: seq<Link>)
    reads set p | p in links
    ensures |vs| == |links|
    ensures forall k :: 0 <= k < |links| ==> vs[k] == links[k].View()
  {
    seq(|links|, k reads set p | p in links requires 0 <= k < |links| => links[k].View())
  }

  /** The links and settings of every promise of `links`, which dispatch
      leaves alone. */
  ghost function Shape(links: seq<Promise>): (r: seq<(Promise?, Promise?, Queue, string)>)
    reads set p | p in links
    ensures |r| == |links|
    ensures forall k :: 0 <= k < |links| ==> r[k] == (links[k].next, links[k].prev, links[k].queue, links[k].name)
  {
    seq(|links|, k reads set p | p in links requires 0 <= k < |links| =>
      (links[k].next, links[k].prev, links[k].queue, links[k].name))
  }

  /** How one visit of the dispatcher at link `i` changes the view of the
      chain: link `i` fires if it is triggered, nothing else happens. */
  ghost predicate DispatchedAt(before: seq<Link>, after: seq<Link>, i: nat)
  {
    i + 1 < |before| == |after| &&
    (forall j :: 0 <= j < |before| && j != i && j != i + 1 ==> after[j] == before[j]) &&
    (Triggered(before[i]) ==>
      after[i] == before[i].(fired := true) &&
      after[i + 1] == before[i + 1].(state := Deliver(before[i + 1].state, Handle(before[i].state, before[i].blocks)))) &&
    (!Triggered(before[i]) ==> after[i] == before[i] && after[i + 1] == before[i + 1])
  }

  /** What one visit of the dispatcher leaves for the rest of the pass is
      what `Advance` says. */
  lemma AdvanceStep(before: seq<Link>, after: seq<Link>, i: nat)
    requires DispatchedAt(before, after, i)
    ensures Advance(before[i..]) == after[i + 1..]
    ensures after[..i + 1] == before[..i] + [Fired(before[i])]
  {
    var ls := before[i..];
    assert ls[0] == before[i] && ls[1] == before[i + 1];
    if Triggered(before[i]) {
      assert [after[i + 1]] + ls[2..] == after[i + 1..];
    } else {
      assert ls[1..] == after[i + 1..];
    }
  }

  /** The invariant of the dispatch pass survives one visit. */
  lemma PassStep(start: seq<Link>, before: seq<Link>, after: seq<Link>, i: nat,
                 faults: seq<Fault>, step: seq<Fault>)
    requires DispatchedAt(before, after, i)
    requires Run(start) == before[..i] + Run(before[i..])
    requires Faults(start, 0) == faults + Faults(before[i..], i)
    requires step == StepFaults(before[i..], i)
    ensures Run(start) == after[..i + 1] + Run(after[i + 1..])
    ensures Faults(start, 0) == (faults + step) + Faults(after[i + 1..], i + 1)
  {
    AdvanceStep(before, after, i);
    RunAdvanced(start, before, after, i);
    FaultsAdvanced(start, before, after, i, faults, step);
  }

  /** The `Run` half of `PassStep`, on the facts `AdvanceStep` gives. */
  lemma RunAdvanced(start: seq<Link>, before: seq<Link>, after: seq<Link>, i: nat)
    requires i + 1 < |before| && i + 1 < |after|
    requires Advance(before[i..]) == after[i + 1..]
    requires after[..i + 1] == before[..i] + [Fired(before[i])]
    requires Run(start) == before[..i] + Run(before[i..])
    ensures Run(start) == after[..i + 1] + Run(after[i + 1..])
  {
    RunStep(before, after, i);
  }

  /** The `Faults` half of `PassStep`, on the facts `AdvanceStep` gives. */
  lemma FaultsAdvanced(start: seq<Link>, before: seq<Link>, after: seq<Link>, i: nat,
                       faults: seq<Fault>, step: seq<Fault>)
    requires i + 1 < |before| && i + 1 < |after|
    requires Advance(before[i..]) == after[i + 1..]
    requires Faults(start, 0) == faults + Faults(before[i..], i)
    requires step == StepFaults(before[i..], i)
    ensures Faults(start, 0) == (faults + step) + Faults(after[i + 1..], i + 1)
  {
    FaultsStep(before, after, i);
    var rest := Faults(after[i + 1..], i + 1);
    assert faults + (step + rest) == (faults + step) + rest;
  }

  /** At the tail the dispatch pass is over: the links are as `Run` says
      and every fault has been collected. */
  lemma PassEnd(start: seq<Link>, vs: seq<Link>, i: nat, faults: seq<Fault>)
    requires i + 1 == |vs|
    requires Run(start) == vs[..i] + Run(vs[i..])
    requires Faults(start, 0) == faults + Faults(vs[i..], i)
    ensures vs == Run(start) && faults == Faults(start, 0)
  {
    assert vs[i..] == [vs[i]];
    assert vs[..i] + vs[i..] == vs;
  }

  /** One visit of the dispatcher agrees with `Run`. */
  lemma RunStep(before: seq<Link>, after: seq<Link>, i: nat)
    requires i + 1 < |before| && i + 1 < |after|
    requires Advance(before[i..]) == after[i + 1..]
    requires after[..i + 1] == before[..i] + [Fired(before[i])]
    ensures before[..i] + Run(before[i..]) == after[..i + 1] + Run(after[i + 1..])
  {
    var ls := before[i..];
    assert ls[0] == before[i];
    assert Run(ls) == [Fired(ls[0])] + Run(after[i + 1..]);
  }

  /** One visit of the dispatcher agrees with `Faults`. */
  lemma FaultsStep(before: seq<Link>, after: seq<Link>, i: nat)
    requires i + 1 < |before| && i + 1 <= |after|
    requires Advance(before[i..]) == after[i + 1..]
    ensures Faults(before[i..], i) == StepFaults(before[i..], i) + Faults(after[i + 1..], i + 1)
  {
  }
}
