/** Calls of Write over whole runs (pkg/protocol/session.go). A program is the two sides, and for
    each the Write that is under way and those that returned, with the counts that their callers
    saw. The steps of a Write interleave with everything else that happens. */
module Writes {
  import opened Bytes
  import opened Fragment
  import opened Protocols
  import opened Segments
  import opened Endpoints
  import opened Transport
  import opened Runs

  // A call as its caller sees it: the data, the count that it returned and whether it succeeded.
  datatype Call = Call(b: seq<byte>, n: nat, ok: bool)

  datatype Activity =
    | Idle
    | Begun(b: seq<byte>)                        // the open request goes first
    | Writing(b: seq<byte>, n: nat)              // whole chunks with n bytes are queued
    | Ending(b: seq<byte>, n: nat, ok: bool)     // what is going to be returned

  // Write holds a lock, so that one call is under way at a time.
  datatype Writer = Writer(calls: seq<Call>, act: Activity)

  datatype Program = Program(w: World, client: Writer, server: Writer)

  datatype Event =
    | Enter(who: Who, b: seq<byte>)
    | Leave(who: Who)
    | Do(st: Step)

  function Start(cm: int, cl: int, sm: int, sl: int): (p: Program) {
    Program(Init(cm, cl, sm, sl), Writer([], Idle), Writer([], Idle))
  }

  function WriterAt(p: Program, who: Who): (x: Writer) { if who.Client? then p.client else p.server }

  function WithWriter(p: Program, who: Who, x: Writer): (q: Program) {
    if who.Client? then p.(client := x) else p.(server := x)
  }

  function NextChunk(b: seq<byte>, n: nat): (c: seq<byte>)
    requires n <= |b|
  {
    b[n..n + Min(|b| - n, MAX_PDU)]
  }

  // The steps of writing belong to the call under way; all others happen at any time.
  ghost predicate CanHappen(p: Program, ev: Event) {
    match ev
    case Enter(who, b) => WriterAt(p, who).act.Idle? && Alive(p.w, who)
    case Leave(who) => WriterAt(p, who).act.Writing? || WriterAt(p, who).act.Ending?
    case Do(st) =>
      && Enabled(p.w, st)
      && match st
         case OpenStep(b) => p.client.act == Begun(b)
         case WriteStep(who, c, stop) =>
           var act := WriterAt(p, who).act;
           act.Writing? && act.n < |act.b| && c == NextChunk(act.b, act.n) && PartsOf(At(p.w, who).e, c) != []
         case _ => true
  }

  function Entered(e: Endpoint, b: seq<byte>): (act: Activity) {
    if Opening(e) && !e.openSent then Begun(b) else Writing(b, 0)
  }

  // A Write returns without an error when nothing is left. It returns early with the bytes of the
  // whole chunks before a chunk that is refused.
  function Returned(act: Activity): (c: Call)
    requires act.Writing? || act.Ending?
  {
    if act.Ending? then Call(act.b, act.n, act.ok) else Call(act.b, act.n, act.n == |act.b|)
  }

  // A Write ends with its open request if that carries anything, and returns the length of what
  // it carries. It ends with an error in a chunk whose fragment loop stops.
  function Went(w: World, act: Activity, st: Step, who: Who): (next: Activity) {
    match st
    case OpenStep(b) =>
      if who.Client? && act.Begun? then
        var carried := OpenRequest(w.client.e, b).payload;
        if |carried| > 0 then Ending(b, |carried|, true) else Writing(b, 0)
      else act
    case WriteStep(x, c, stop) =>
      if x == who && act.Writing? then
        if stop == |PartsOf(At(w, x).e, c)| then Writing(act.b, act.n + |c|) else Ending(act.b, act.n, false)
      else act
    case _ => act
  }

  ghost function Happened(p: Program, ev: Event): (q: Program)
    requires CanHappen(p, ev)
  {
    match ev
    case Enter(who, b) => WithWriter(p, who, WriterAt(p, who).(act := Entered(At(p.w, who).e, b)))
    case Leave(who) => WithWriter(p, who, Writer(WriterAt(p, who).calls + [Returned(WriterAt(p, who).act)], Idle))
    case Do(st) =>
      Program(Apply(p.w, st), p.client.(act := Went(p.w, p.client.act, st, Client)), p.server.(act := Went(p.w, p.server.act, st, Server)))
  }

  ghost predicate IsProgram(ps: seq<Program>, evs: seq<Event>, cm: int, cl: int, sm: int, sl: int) {
    && |ps| == |evs| + 1
    && ps[0] == Start(cm, cl, sm, sl)
    && forall i | 0 <= i < |evs| :: CanHappen(ps[i], evs[i]) && ps[i + 1] == Happened(ps[i], evs[i])
  }

  // The steps of a program are a run of its two sides.
  lemma {:induction false} ProgramIsRun(ps: seq<Program>, evs: seq<Event>, cm: int, cl: int, sm: int, sl: int, i: nat)
    returns (ws: seq<World>, steps: seq<Step>)
    requires IsProgram(ps, evs, cm, cl, sm, sl) && i < |ps|
    ensures IsRun(ws, steps, cm, cl, sm, sl) && |ws| == |steps| + 1 && ws[|steps|] == ps[i].w
  {
    hide Enabled, Apply, Init, Went;
    if i == 0 {
      return [Init(cm, cl, sm, sl)], [];
    }
    ws, steps := ProgramIsRun(ps, evs, cm, cl, sm, sl, i - 1);
    match evs[i - 1]
    case Enter(who, b) =>
    case Leave(who) =>
    case Do(st) =>
      ws, steps := ws + [ps[i].w], steps + [st];
  }

  // ---------------------------------------------------------------------------
  // What the calls handed over
  // ---------------------------------------------------------------------------

  // The calls so far. One that is under way counts as not successful yet.
  function Calls(x: Writer): (cs: seq<Call>) {
    x.calls +
    match x.act
    case Idle => []
    case Begun(b) => [Call(b, 0, false)]
    case Writing(b, n) => [Call(b, n, false)]
    case Ending(b, n, ok) => [Call(b, n, ok)]
  }

  ghost predicate AllCarry(cs: seq<Call>, carried: seq<seq<byte>>) {
    |carried| == |cs| && forall j | 0 <= j < |cs| :: Carries(cs[j].b, cs[j].n, cs[j].ok, carried[j])
  }

  // Call by call, `carried` is what was handed to the session, and together it is in the segments
  // that were numbered. A call under way has handed over exactly what it counts.
  ghost predicate Accounts(x: Writer, log: seq<Packet>, carried: seq<seq<byte>>) {
    && AllCarry(Calls(x), carried)
    && Payloads(log) == Flatten(carried)
    && match x.act
       case Begun(b) => carried[|carried| - 1] == []
       case Writing(b, n) => carried[|carried| - 1] == b[..n]
       case _ => true
  }

  // The last call has handed over more.
  lemma {:induction false} LastGrows(cs: seq<Call>, carried: seq<seq<byte>>, c: Call, y: seq<byte>)
    requires cs != [] && AllCarry(cs, carried) && Carries(c.b, c.n, c.ok, carried[|cs| - 1] + y)
    ensures
      (var next := carried[..|cs| - 1] + [carried[|cs| - 1] + y];
       AllCarry(cs[..|cs| - 1] + [c], next) && Flatten(next) == Flatten(carried) + y && next[|next| - 1] == carried[|cs| - 1] + y)
  {
    hide Flatten, Carries;
    var front, last := carried[..|cs| - 1], carried[|cs| - 1];
    FlattenNext(front, last);
    FlattenNext(front, last + y);
    assert front + [last] == carried;
    Associates(Flatten(front), last, y);
  }

  // A step that is not one of writing numbers nothing with a payload.
  lemma {:induction false} OthersQueueNothing(w: World, st: Step, who: Who)
    requires Enabled(w, st) && !st.OpenStep? && !(st.WriteStep? && st.who == who)
    ensures Payloads(At(Apply(w, st), who).log) == Payloads(At(w, who).log)
  {
    hide PartsOf, Payloads, Enqueue, ReadRest, ReadsResponse, Endpoints.Input, SendNew, ResendTree, ResentPackets, EarliestDeadline, CanSendNew, NextToSend, SideQueueParts;
    match st
    case InputStep(x, now) =>
      PayloadsAppend(At(w, x).log, OpenResponse(At(w, x).e));
      assert Payloads(At(w, x).log) + [] == Payloads(At(w, x).log);
    case _ =>
  }

  lemma {:induction false} EnterAccounts(x: Writer, log: seq<Packet>, carried: seq<seq<byte>>, e: Endpoint, b: seq<byte>)
    requires Accounts(x, log, carried) && x.act.Idle?
    ensures Accounts(x.(act := Entered(e, b)), log, carried + [[]])
  {
    hide Flatten, Payloads;
    FlattenNext(carried, []);
    assert Flatten(carried) + [] == Flatten(carried);
    assert Calls(x) == x.calls;
  }

  lemma {:induction false} LeaveAccounts(x: Writer, log: seq<Packet>, carried: seq<seq<byte>>)
    requires Accounts(x, log, carried) && (x.act.Writing? || x.act.Ending?)
    ensures Accounts(Writer(x.calls + [Returned(x.act)], Idle), log, carried)
  {
    hide Flatten, Payloads;
    var cs, ds := Calls(x), x.calls + [Returned(x.act)];
    forall j | 0 <= j < |ds|
      ensures Carries(ds[j].b, ds[j].n, ds[j].ok, carried[j])
    {
      assert j < |x.calls| ==> ds[j] == cs[j];
      assert Carries(cs[j].b, cs[j].n, cs[j].ok, carried[j]);
    }
  }

  lemma {:induction false} OpenAccounts(a: Side, x: Writer, carried: seq<seq<byte>>, w: World) returns (next: seq<seq<byte>>)
    requires Accounts(x, a.log, carried) && x.act.Begun? && w.client == a
    ensures Accounts(x.(act := Went(w, x.act, OpenStep(x.act.b), Client)), SideWriteOpen(a, x.act.b).log, next)
  {
    hide Flatten, Payloads, AllCarry, Enqueue;
    var b := x.act.b;
    var p := OpenRequest(a.e, b);
    PayloadsAppend(a.log, p);
    OpenCarries(a.e, b);
    var act := Went(w, x.act, OpenStep(b), Client);
    var c := if act.Ending? then Call(b, act.n, true) else Call(b, 0, false);
    SameCount(Calls(x), carried);
    assert [] + p.payload == p.payload;
    LastGrows(Calls(x), carried, c, p.payload);
    assert Calls(x)[..|Calls(x)| - 1] == x.calls;
    next := carried[..|Calls(x)| - 1] + [carried[|Calls(x)| - 1] + p.payload];
  }

  lemma {:induction false} SameCount(cs: seq<Call>, carried: seq<seq<byte>>)
    requires AllCarry(cs, carried)
    ensures |carried| == |cs|
  {}

  // An open request carries all of the data or nothing.
  lemma {:induction false} OpenCarries(e: Endpoint, b: seq<byte>)
    ensures
      (var x := OpenRequest(e, b).payload;
       if |x| > 0 then Carries(b, |x|, true, x) else Carries(b, 0, false, x) && x == b[..0])
  {
    assert b[..|b|] == b;
  }

  lemma {:induction false} PartsCarry(e: Endpoint, b: seq<byte>, n: nat, stop: nat)
    requires n < |b| && PartsOf(e, NextChunk(b, n)) != [] && stop <= |PartsOf(e, NextChunk(b, n))|
    ensures
      (var c := NextChunk(b, n);
       var y := Flatten(PartsOf(e, c)[..stop]);
       && 0 < |c| <= MAX_PDU && Carries(b, n, false, b[..n] + y)
       && (stop == |PartsOf(e, c)| ==> y == c && b[..n] + y == b[..n + |c|]))
  {
    hide Fragments, Flatten, MaxFragmentSize, SendMode;
    var c := NextChunk(b, n);
    var parts := PartsOf(e, c);
    FragmentsOf(c, MaxFragmentSize(e.mtu, PacketTransport, SendMode(e)).value);
    FlattenPrefix(parts, stop);
    assert parts[..|parts|] == parts;
    var y := Flatten(parts[..stop]);
    assert y == c[..|y|] && b[..n] + y == b[..n + |y|];
  }

  lemma {:induction false} WriteAccounts(w: World, who: Who, x: Writer, carried: seq<seq<byte>>, c: seq<byte>, stop: nat) returns (next: seq<seq<byte>>)
    requires Accounts(x, At(w, who).log, carried) && x.act.Writing? && x.act.n < |x.act.b| && c == NextChunk(x.act.b, x.act.n)
    requires PartsOf(At(w, who).e, c) != [] && stop <= |PartsOf(At(w, who).e, c)|
    ensures Accounts(x.(act := Went(w, x.act, WriteStep(who, c, stop), who)), SideQueueParts(At(w, who), PartsOf(At(w, who).e, c), stop).log, next)
  {
    hide Flatten, Payloads, AllCarry, SideQueueParts, PartsOf;
    var b, n := x.act.b, x.act.n;
    var parts := PartsOf(At(w, who).e, c);
    var y := Flatten(parts[..stop]);
    QueuePartsPayload(At(w, who), parts, stop);
    PartsCarry(At(w, who).e, b, n, stop);
    var act := Went(w, x.act, WriteStep(who, c, stop), who);
    SameCount(Calls(x), carried);
    LastGrows(Calls(x), carried, Call(b, act.n, false), y);
    assert Calls(x)[..|Calls(x)| - 1] == x.calls;
    next := carried[..|Calls(x)| - 1] + [carried[|Calls(x)| - 1] + y];
  }

  lemma {:induction false} StepAccounts(p: Program, st: Step, who: Who, carried: seq<seq<byte>>) returns (next: seq<seq<byte>>)
    requires CanHappen(p, Do(st)) && Accounts(WriterAt(p, who), At(p.w, who).log, carried)
    ensures
      (var q := Happened(p, Do(st));
       Accounts(WriterAt(q, who), At(q.w, who).log, next))
  {
    hide Payloads, Flatten, AllCarry, SideQueueParts, PartsOf;
    match st
    case OpenStep(b) =>
      if who.Client? {
        next := OpenAccounts(p.w.client, p.client, carried, p.w);
      } else {
        next := carried;
      }
    case WriteStep(x, c, stop) =>
      if x == who {
        next := WriteAccounts(p.w, who, WriterAt(p, who), carried, c, stop);
      } else {
        next := carried;
      }
    case _ =>
      OthersQueueNothing(p.w, st, who);
      next := carried;
  }

  lemma {:induction false} EventAccounts(p: Program, ev: Event, who: Who, carried: seq<seq<byte>>) returns (next: seq<seq<byte>>)
    requires CanHappen(p, ev) && Accounts(WriterAt(p, who), At(p.w, who).log, carried)
    ensures
      (var q := Happened(p, ev);
       Accounts(WriterAt(q, who), At(q.w, who).log, next))
  {
    hide Accounts, Went, Enabled, Apply, PartsOf;
    next := carried;
    match ev
    case Enter(x, b) =>
      if x == who {
        EnterAccounts(WriterAt(p, who), At(p.w, who).log, carried, At(p.w, who).e, b);
        next := carried + [[]];
      }
    case Leave(x) =>
      if x == who {
        LeaveAccounts(WriterAt(p, who), At(p.w, who).log, carried);
      }
    case Do(st) =>
      next := StepAccounts(p, st, who, carried);
  }

  // In every program, the segments that a side numbered carry what its calls of Write handed over:
  // for a call that succeeded all of its data, and for one that returned n with an error the first
  // n bytes and a part of the chunk after them.
  lemma {:induction false} LogIsWritten(ps: seq<Program>, evs: seq<Event>, cm: int, cl: int, sm: int, sl: int, i: nat, who: Who)
    returns (carried: seq<seq<byte>>)
    requires IsProgram(ps, evs, cm, cl, sm, sl) && i < |ps|
    ensures Accounts(WriterAt(ps[i], who), At(ps[i].w, who).log, carried)
    ensures AllCarry(Calls(WriterAt(ps[i], who)), carried) && Payloads(At(ps[i].w, who).log) == Flatten(carried)
  {
    hide CanHappen, Happened, Init;
    if i == 0 {
      StartAccounts(cm, cl, sm, sl, who);
      carried := [];
    } else {
      carried := LogIsWritten(ps, evs, cm, cl, sm, sl, i - 1, who);
      carried := EventAccounts(ps[i - 1], evs[i - 1], who, carried);
    }
  }

  lemma {:induction false} StartAccounts(cm: int, cl: int, sm: int, sl: int, who: Who)
    ensures Accounts(WriterAt(Start(cm, cl, sm, sl), who), At(Start(cm, cl, sm, sl).w, who).log, [])
  {
    FlattenNone();
  }

  // ---------------------------------------------------------------------------
  // End to end
  // ---------------------------------------------------------------------------

  // The data of the calls, one after the other.
  function Data(cs: seq<Call>): (r: seq<byte>) {
    if cs == [] then [] else Data(cs[..|cs| - 1]) + cs[|cs| - 1].b
  }

  predicate AllOk(cs: seq<Call>) {
    forall j | 0 <= j < |cs| :: cs[j].ok
  }

  lemma {:induction false} OkCarryAll(cs: seq<Call>, carried: seq<seq<byte>>)
    requires AllCarry(cs, carried) && AllOk(cs)
    ensures Flatten(carried) == Data(cs)
    decreases |cs|
  {
    if cs != [] {
      var n := |cs| - 1;
      OkCarryAll(cs[..n], carried[..n]);
      assert Carries(cs[n].b, cs[n].n, true, carried[n]);
    }
  }

  // End to end: whatever the network does, the bytes that one application has read are a prefix
  // of what the calls of the other have handed over, and of their data if all have succeeded.
  lemma {:induction false} EndToEnd(ps: seq<Program>, evs: seq<Event>, cm: int, cl: int, sm: int, sl: int, i: nat, who: Who)
    returns (carried: seq<seq<byte>>)
    requires IsProgram(ps, evs, cm, cl, sm, sl) && i < |ps|
    ensures
      (var cs := Calls(WriterAt(ps[i], Other(who)));
       && AllCarry(cs, carried) && At(ps[i].w, who).got <= Flatten(carried)
       && (AllOk(cs) ==> At(ps[i].w, who).got <= Data(cs)))
  {
    hide IsProgram, IsRun, Payloads, Flatten, Pending, AllCarry, Accounts, AllOk, Data;
    carried := LogIsWritten(ps, evs, cm, cl, sm, sl, i, Other(who));
    var ws, steps := ProgramIsRun(ps, evs, cm, cl, sm, sl, i);
    PrefixDelivery(ws, steps, cm, cl, sm, sl, |steps|, who);
    if AllOk(Calls(WriterAt(ps[i], Other(who)))) {
      OkCarryAll(Calls(WriterAt(ps[i], Other(who))), carried);
    }
  }

  // A sender with nothing queued and nothing unacknowledged has had everything that its calls
  // handed over taken in, read or ready to be read.
  lemma {:induction false} DrainedMeansDelivered(ps: seq<Program>, evs: seq<Event>, cm: int, cl: int, sm: int, sl: int, i: nat, who: Who)
    returns (carried: seq<seq<byte>>)
    requires IsProgram(ps, evs, cm, cl, sm, sl) && i < |ps|
    requires Peer(ps[i].w, who).e.snd.sendQueue == map[] && Peer(ps[i].w, who).e.snd.sendBuf == map[]
    ensures
      (var a, cs := At(ps[i].w, who), Calls(WriterAt(ps[i], Other(who)));
       && AllCarry(cs, carried) && a.got + Pending(a.e.rcv) == Flatten(carried)
       && (AllOk(cs) ==> a.got + Pending(a.e.rcv) == Data(cs)))
  {
    hide IsProgram, IsRun, Payloads, Flatten, Pending, AllCarry, Accounts, AllOk, Data;
    carried := LogIsWritten(ps, evs, cm, cl, sm, sl, i, Other(who));
    var ws, steps := ProgramIsRun(ps, evs, cm, cl, sm, sl, i);
    DrainedMeansTaken(ws, steps, cm, cl, sm, sl, |steps|, who);
    if AllOk(Calls(WriterAt(ps[i], Other(who)))) {
      OkCarryAll(Calls(WriterAt(ps[i], Other(who))), carried);
    }
  }
}
