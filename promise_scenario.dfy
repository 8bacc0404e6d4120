/**
  A client of the Promise chain engine: what callers can conclude from the
  contracts alone. The main chain is a promise resolved with 5 followed by
  a block adding one, a block that signals error 42, an error block
  recovering with -1 and a last success block passing its input on.
*/
module PromiseScenario {
  import opened Promises

  function AddOne(x: Value): Value
  {
    if x.Obj? then Obj(x.id + 1) else x
  }

  function RaiseBad(x: Value): Value
  {
    Err(Promise.GetError(42, "bad"))
  }

  function Ignore(x: Value): Value
  {
    Nil
  }

  function Recover(e: NSError): Value
  {
    Obj(-1)
  }

  function Pass(x: Value): Value
  {
    x
  }

  const Recovering: seq<Blocks> :=
    [Blocks(AddOne, None), Blocks(RaiseBad, None), Blocks(Ignore, Some(Recover)), Blocks(Pass, None)]

  /** Builds the chain with resolvedWith: and then: / then:error:. */
  method BuildRecoveringChain() returns (a: Promise, b: Promise, c: Promise, d: Promise, e: Promise)
    ensures fresh(a) && fresh(b) && fresh(c) && fresh(d) && fresh(e)
    ensures a.Valid() && b.Valid() && c.Valid() && d.Valid() && e.Valid()
    ensures a.next == b && b.next == c && c.next == d && d.next == e && e.next == null
    ensures b.prev == a && c.prev == b && d.prev == c && e.prev == d
    ensures a.View() == Link(Resolved(Obj(5)), Recovering[0], false)
    ensures b.View() == Link(Pending, Recovering[1], false)
    ensures c.View() == Link(Pending, Recovering[2], false)
    ensures d.View() == Link(Pending, Recovering[3], false)
    ensures e.View() == Link(Pending, NoBlocks, false)
  {
    a := new Promise.ResolvedWith(Obj(5));
    b := a.Then(AddOne);
    c := b.Then(RaiseBad);
    d := c.ThenError(Ignore, Some(Recover));
    e := d.Then(Pass);
  }

  lemma RecoveringFlow()
    ensures AllHaveBlocks(Recovering)
    ensures Flow(Resolved(Obj(5)), Recovering) ==
      [Resolved(Obj(5)), Resolved(Obj(6)), Rejected(NSError(42, "bad")), Resolved(Obj(-1)), Resolved(Obj(-1))]
  {
    var s := Resolved(Obj(5));
    FlowStep(s, Recovering, 0);
    FlowStep(s, Recovering, 1);
    FlowStep(s, Recovering, 2);
    FlowStep(s, Recovering, 3);
  }

  /** The views of the recovering chain as built, before any dispatch. */
  const RecoveringStart: seq<Link> :=
    [Link(Resolved(Obj(5)), Recovering[0], false), Link(Pending, Recovering[1], false),
     Link(Pending, Recovering[2], false), Link(Pending, Recovering[3], false),
     Link(Pending, NoBlocks, false)]

  /** One pass over the recovering chain leaves -1 in its last two links
      and reports nothing. */
  lemma RecoveringOutcome()
    ensures Run(RecoveringStart)[3] == Link(Resolved(Obj(-1)), Recovering[3], true)
    ensures Run(RecoveringStart)[4] == Link(Resolved(Obj(-1)), NoBlocks, false)
    ensures Faults(RecoveringStart, 0) == []
  {
    var start := RecoveringStart;
    assert BlocksOf(start[..4]) == Recovering;
    RunFollowsFlow(start);
    FaultsFollowFlow(start, 0);
    RecoveringFlow();
  }

  /** The error raised by the second block is recovered by the third link's
      error block, so the last link receives -1 and nothing is reported. */
  method RecoveringChain()
  {
    var a, b, c, d, e := BuildRecoveringChain();
    var links := [a, b, c, d, e];
    assert Chain(links);
    ghost var start := Views(links);
    assert start == RecoveringStart;
    RecoveringOutcome();
    var faults := links[0].Drive(links);
    assert links[3].state == Resolved(Obj(-1));
    assert links[4].state == Resolved(Obj(-1));
    assert links[3].fired && !links[4].fired;
    assert faults == [];
  }

  /** The views of the unhandled chain as built, before any dispatch. */
  const LostStart: seq<Link> :=
    [Link(Rejected(NSError(7, "lost")), Blocks(Pass, None), false), Link(Pending, NoBlocks, false)]

  /** One pass over the unhandled chain delivers error 7 to the tail and
      reports it; a second pass reports nothing. */
  lemma UnhandledOutcome()
    ensures Run(LostStart)[1].state == Rejected(NSError(7, "lost"))
    ensures Faults(LostStart, 0) == [Unhandled(NSError(7, "lost"))]
    ensures Faults(Run(LostStart), 0) == []
  {
    var start := LostStart;
    RunFollowsFlow(start);
    FaultsFollowFlow(start, 0);
    UnhandledReachesTail(NSError(7, "lost"), BlocksOf(start[..1]));
    assert Run(start)[0].fired;
  }

  /** A promise rejected with code 7 followed by a success block only: the
      error cascades to the end of the chain and is reported unhandled. */
  method UnhandledChain()
  {
    var a := new Promise.ResolvedWithError(7, "lost");
    var b := a.Then(Pass);
    ghost var links := [a, b];
    assert Views(links) == LostStart;
    UnhandledOutcome();
    var faults := a.Drive(links);
    assert b.state == Rejected(NSError(7, "lost"));
    assert faults == [Unhandled(NSError(7, "lost"))];
    // A second pass finds nothing ready and reports nothing again.
    faults := a.Drive(links);
    assert faults == [];
  }

  /** A rejected promise with no successor waits for one: dispatch does
      nothing and reports nothing. */
  method LoneRejection()
  {
    var a := new Promise.ResolvedWithError(7, "lost");
    var faults := a.Drive([a]);
    assert a.state == Rejected(NSError(7, "lost")) && !a.fired;
    assert faults == [];
  }

  /** The successor is settled directly before its predecessor fires: the
      firing is refused, the successor keeps its first settlement, and the
      pass reports the second settlement. */
  method DoubleSettlement()
  {
    var a := new Promise.Named("first");
    var b := a.Then(Pass);
    var acceptedB := b.Resolve(Obj(1));
    var acceptedA := a.Resolve(Obj(2));
    assert acceptedA && acceptedB;
    ghost var links := [a, b];
    assert Chain(links);
    var faults := a.Drive(links);
    assert b.state == Resolved(Obj(1)) && a.fired;
    assert faults == [SettledTwice(1)];
  }
}
