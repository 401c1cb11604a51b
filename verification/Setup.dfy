/**
 The life of the setup helper and of the table it serves, driven by announcements, removals
 and passes of the event loop in any order.
 */
module Setup {
  import opened Octets
  import opened Wrappers
  import opened DeviceTable
  import A = Announce

  datatype Phase = Idle | Waiting | Finished  // SETUP_IDLE, SETUP_WAITING, SETUP_DONE

  /** What the world answers during one pass of the event loop. */
  datatype Launch = NoLaunch | Launched(fd: nat, pid: nat)
  datatype Pass = Pass(launch: Launch, readable: bool, result: char, listener: int, acceptOk: bool)

  /** `launched` and `reaped` count helpers; `open` are the listening sockets opened and not closed. */
  datatype Life = Life(phase: Phase, triggered: bool, pipeFd: int, childPid: int, listenerFd: int,
                       launched: nat, reaped: nat, open: set<int>)

  datatype World = World(table: seq<Dev>, life: Life)

  datatype Event =
    | Announced(dev: Dev, memory: bool)
    | Gone(id: u32)
    | Checked(pass: Pass)

  const START := World([], Life(Idle, false, -1, -1, -1, 0, 0, {}))

  /** A device table announcement also rearms the setup, if a helper has already finished. */
  function OnAnnounced(w: World, dev: Dev, memory: bool): World
  {
    if !memory || Added(w.table, dev) == w.table then w
    else World(Added(w.table, dev.(queueCreated := false)),
               if w.life.phase.Finished? && w.life.triggered then w.life.(phase := Idle, triggered := false) else w.life)
  }

  /** `launch_setup_helper` under its guard. */
  function OnLaunch(l: Life, printers: nat, launch: Launch): Life
  {
    if l.phase.Idle? && !l.triggered && printers > 0 && launch.Launched? then
      l.(phase := Waiting, triggered := true, pipeFd := launch.fd, childPid := launch.pid, launched := l.launched + 1)
    else l
  }

  /** `handle_setup_complete` under its guard; 'S' is the helper's word for success. */
  predicate Completes(l: Life, pass: Pass)
  {
    l.phase.Waiting? && l.pipeFd >= 0 && pass.readable
  }

  function OnComplete(w: World, pass: Pass): World
  {
    if !Completes(w.life, pass) then w
    else
      var l := w.life.(phase := Finished, pipeFd := -1, childPid := if w.life.childPid > 0 then -1 else w.life.childPid,
                       reaped := w.life.reaped + (if w.life.childPid > 0 then 1 else 0));
      if pass.result == 'S' then
        World(Marked(w.table),
              l.(listenerFd := pass.listener, open := l.open + (if pass.listener >= 0 then {pass.listener} else {})))
      else World(w.table, l)
  }

  function OnAccept(l: Life, acceptOk: bool): Life
  {
    if l.listenerFd >= 0 && !acceptOk then l.(listenerFd := -1, open := l.open - {l.listenerFd}) else l
  }

  function Step(w: World, e: Event): World
  {
    match e
    case Announced(dev, memory) => OnAnnounced(w, dev, memory)
    case Gone(id) => w.(table := Removed(w.table, id))
    case Checked(pass) =>
      var a := w.(life := OnLaunch(w.life, |w.table|, pass.launch));
      var b := OnComplete(a, pass);
      b.(life := OnAccept(b.life, pass.acceptOk))
  }

  function Run(events: seq<Event>): World
  {
    if events == [] then START else Step(Run(events[..|events| - 1]), events[|events| - 1])
  }

  /** A process id is positive, which `fork` guarantees its parent. */
  predicate Real(e: Event)
  {
    e.Checked? && e.pass.launch.Launched? ==> e.pass.launch.pid > 0
  }

  /**
   Phase, pipe, child and trigger agree; every helper launched has been reaped, but the one
   being waited for.
   */
  ghost predicate LifeOk(l: Life)
  {
    && (l.phase.Waiting? <==> l.pipeFd >= 0)
    && (l.phase.Waiting? <==> l.childPid > 0)
    && (l.phase.Idle? <==> !l.triggered)
    && l.launched == l.reaped + (if l.phase.Waiting? then 1 else 0)
  }

  ghost predicate WorldOk(w: World)
  {
    TableOk(w.table) && LifeOk(w.life)
  }

  lemma {:induction false} StepKeepsOk(w: World, e: Event)
    requires WorldOk(w) && Real(e)
    ensures WorldOk(Step(w, e))
  {
    match e
    case Announced(dev, memory) => AddedRefines(w.table, dev.(queueCreated := false), dev.id);
    case Gone(id) => RemovedRefines(w.table, id, id);
    case Checked(pass) => MarkedRefines(w.table, 0);
  }

  /** Over any interleaving: a compact table with unique ids, and a consistent lifecycle. */
  lemma {:induction false} RunKeepsOk(events: seq<Event>)
    requires forall e :: e in events ==> Real(e)
    ensures WorldOk(Run(events))
  {
    if events != [] {
      RunKeepsOk(events[..|events| - 1]);
      StepKeepsOk(Run(events[..|events| - 1]), events[|events| - 1]);
    }
  }

  /** A helper is launched only when none is tracked and none is unreaped, so never two at once. */
  lemma {:induction false} OneHelperAtATime(events: seq<Event>, e: Event)
    requires (forall x :: x in events ==> Real(x)) && Real(e)
    ensures var l, l' := Run(events).life, Step(Run(events), e).life;
      && l.launched <= l.reaped + 1
      && (l'.launched > l.launched ==>
            l.childPid <= 0 && l.pipeFd < 0 && l.launched == l.reaped && l'.launched == l.launched + 1 && Run(events).table != [])
  {
    RunKeepsOk(events);
  }

  /** A printer announced after a finished helper is enough for the next pass to launch another. */
  lemma {:induction false} LatePrinterIsServed(w: World, dev: Dev, pass: Pass)
    requires WorldOk(w) && w.life.phase.Finished?
    requires |w.table| < MAX_PRINTERS && IndexOf(w.table, dev.id) < 0 && pass.launch.Launched?
    ensures var a := Step(w, Announced(dev, true));
      && Step(a, Checked(pass)).life.launched == w.life.launched + 1
      && a.table == w.table + [dev.(queueCreated := false)]
  {
    assert (w.table + [dev])[|w.table|] == dev;
  }

  // The events one by one, in terms of table and globals

  /**
   An announcement goes to the end of a table that has room for it and does not know its id, and
   rearms the setup after a finished helper; any other announcement is without effect.
   */
  lemma {:induction false} AnnouncedMeans(w: World, dev: Dev, memory: bool)
    requires WorldOk(w)
    ensures var t := Step(w, Announced(dev, memory));
      if memory && |w.table| < 16 && (forall d :: d in w.table ==> d.id != dev.id) then
        && t.table == w.table + [dev.(queueCreated := false)]
        && t.life == if w.life.phase == Finished then w.life.(phase := Idle, triggered := false) else w.life
      else t == w
  {
    var i := IndexOf(w.table, dev.id);
    if i >= 0 { assert w.table[i] in w.table; }
    assert Added(w.table, dev) != w.table ==> Added(w.table, dev)[|w.table|] == dev;
  }

  /** After a removal the id is not known, every other id as before, and the setup goes on. */
  lemma {:induction false} GoneMeans(w: World, id: u32)
    requires TableOk(w.table)
    ensures Step(w, Gone(id)).life == w.life
    ensures forall x :: Lookup(Step(w, Gone(id)).table, x) == if x == id then None else Lookup(w.table, x)
  {
    forall x ensures Lookup(Removed(w.table, id), x) == if x == id then None else Lookup(w.table, x) {
      RemovedRefines(w.table, id, x);
    }
  }

  /**
   A pass after any run: a helper is launched if none was since the last rearming and there are printers; one
   that is waited for is reaped once its pipe is readable, whatever it says.
   */
  lemma {:induction false} PassMeans(events: seq<Event>, pass: Pass)
    requires (forall e :: e in events ==> Real(e)) && Real(Checked(pass))
    ensures var l, t := Run(events).life, Step(Run(events), Checked(pass)).life;
      var launches := l.phase == Idle && Run(events).table != [] && pass.launch.Launched?;
      var completes := (launches || l.phase == Waiting) && pass.readable;
      && t.phase == (if completes then Finished else if launches then Waiting else l.phase)
      && t.triggered == (launches || l.triggered)
      && t.pipeFd == (if completes then -1 else if launches then pass.launch.fd else l.pipeFd)
      && t.childPid == (if completes then -1 else if launches then pass.launch.pid else l.childPid)
      && t.launched == l.launched + (if launches then 1 else 0)
      && t.reaped == l.reaped + (if completes then 1 else 0)
  {
    RunKeepsOk(events);
  }

  /** A helper's 'S' marks the queues and replaces the listener; a failing accept closes the listener. */
  lemma {:induction false} PassServes(events: seq<Event>, pass: Pass)
    requires (forall e :: e in events ==> Real(e)) && Real(Checked(pass))
    ensures var l, t := Run(events).life, Step(Run(events), Checked(pass));
      var launches := l.phase == Idle && Run(events).table != [] && pass.launch.Launched?;
      var success := (launches || l.phase == Waiting) && pass.readable && pass.result == 'S';
      var listener := if success then pass.listener else l.listenerFd;
      && t.life.listenerFd == (if listener >= 0 && !pass.acceptOk then -1 else listener)
      && t.table == if success then Marked(Run(events).table) else Run(events).table
  {
    RunKeepsOk(events);
  }

  /** Event `i` announces the id, with memory, to a table that is not full. */
  ghost predicate Enters(events: seq<Event>, i: nat, id: u32)
    requires i < |events|
  {
    events[i].Announced? && events[i].memory && events[i].dev.id == id && |Run(events[..i]).table| < 16
  }

  /** Such an announcement has been made, and the id not removed since. */
  ghost predicate Listed(events: seq<Event>, id: u32)
  {
    exists i :: 0 <= i < |events| && Enters(events, i, id) && forall k :: i < k < |events| ==> events[k] != Gone(id)
  }

  lemma {:induction false} EntersPrefix(events: seq<Event>, i: nat, id: u32)
    requires i < |events| - 1
    ensures Enters(events[..|events| - 1], i, id) <==> Enters(events, i, id)
  {
    assert events[..|events| - 1][..i] == events[..i];
  }

  lemma {:induction false} ListedSnoc(events: seq<Event>, id: u32)
    requires events != []
    ensures var n := |events| - 1;
      Listed(events, id) <==> Enters(events, n, id) || (Listed(events[..n], id) && events[n] != Gone(id))
  {
    var n := |events| - 1;
    var before := events[..n];
    if Listed(events, id) && !Enters(events, n, id) {
      var i :| 0 <= i < |events| && Enters(events, i, id) && forall k :: i < k < |events| ==> events[k] != Gone(id);
      EntersPrefix(events, i, id);
      assert forall k :: i < k < n ==> before[k] == events[k];
    }
    if Listed(before, id) && events[n] != Gone(id) {
      var i :| 0 <= i < n && Enters(before, i, id) && forall k :: i < k < n ==> before[k] != Gone(id);
      EntersPrefix(events, i, id);
      assert forall k :: i < k < n ==> before[k] == events[k];
    }
  }

  lemma {:induction false} StepLists(w: World, e: Event, id: u32)
    requires TableOk(w.table)
    ensures TableOk(Step(w, e).table)
    ensures Lookup(Step(w, e).table, id).Some? <==>
      || (e.Announced? && e.memory && e.dev.id == id && |w.table| < 16)
      || (Lookup(w.table, id).Some? && e != Gone(id))
  {
    match e
    case Announced(dev, memory) =>
      AddedRefines(w.table, dev, id);
      AddedRefines(w.table, dev.(queueCreated := false), id);
    case Gone(x) => RemovedRefines(w.table, x, id);
    case Checked(pass) => MarkedRefines(w.table, id);
  }

  /**
   After any run the printers in the table are those announced while there was room, and not
   removed since.
   */
  lemma {:induction false} ListedIff(events: seq<Event>, id: u32)
    ensures TableOk(Run(events).table) && (Lookup(Run(events).table, id).Some? <==> Listed(events, id))
  {
    if events != [] {
      var n := |events| - 1;
      ListedIff(events[..n], id);
      StepLists(Run(events[..n]), events[n], id);
      ListedSnoc(events, id);
    }
  }

  // Listening sockets

  /** The kernel gives a new socket a descriptor that is not open. */
  predicate Fresh(w: World, e: Event)
  {
    e.Checked? && e.pass.listener >= 0 ==> e.pass.listener !in w.life.open
  }

  ghost predicate AllFresh(events: seq<Event>)
  {
    forall n :: 0 <= n < |events| ==> Fresh(Run(events[..n]), events[n])
  }

  /** A listening socket is open that the program no longer knows. */
  ghost predicate Leaks(l: Life)
  {
    exists fd :: fd in l.open && fd != l.listenerFd
  }

  /** In event `n` a helper completes with success. */
  predicate Succeeds(events: seq<Event>, n: nat)
    requires n < |events|
  {
    events[n].Checked? && events[n].pass.result == 'S' &&
    Completes(OnLaunch(Run(events[..n]).life, |Run(events[..n]).table|, events[n].pass.launch), events[n].pass)
  }

  /** The listener opened in event `j` is there, and no pass from then on until `n` has a failing accept. */
  ghost predicate Serves(events: seq<Event>, j: nat, n: nat)
  {
    && j < n <= |events| && Succeeds(events, j) && events[j].pass.listener >= 0
    && forall k :: j <= k < n ==> events[k].Checked? ==> events[k].pass.acceptOk
  }

  /** A helper succeeds while the listener of an earlier success is in service. */
  ghost predicate Overtaken(events: seq<Event>)
  {
    exists j, i :: 0 <= j < i < |events| && Serves(events, j, i) && Succeeds(events, i)
  }

  /** The listener of the last success that opened one is in service. */
  ghost predicate InService(events: seq<Event>)
  {
    exists j :: 0 <= j < |events| && Serves(events, j, |events|) && LastSuccess(events, j)
  }

  ghost predicate LastSuccess(events: seq<Event>, j: nat)
  {
    forall i :: j < i < |events| ==> !Succeeds(events, i)
  }

  lemma {:induction false} SucceedsPrefix(events: seq<Event>, n: nat, m: nat)
    requires m < n <= |events|
    ensures Succeeds(events[..n], m) <==> Succeeds(events, m)
  {
    assert events[..n][..m] == events[..m];
  }

  lemma {:induction false} ServesPrefix(events: seq<Event>, n: nat, j: nat, i: nat)
    requires j < i <= n <= |events|
    ensures Serves(events[..n], j, i) <==> Serves(events, j, i)
  {
    SucceedsPrefix(events, n, j);
    assert forall k :: j <= k < i ==> events[..n][k] == events[k];
  }

  /** The descriptors are real, and the current listener is open. */
  ghost predicate ListenerOk(l: Life)
  {
    (forall fd :: fd in l.open ==> fd >= 0) && (l.listenerFd >= 0 ==> l.listenerFd in l.open)
  }

  /** What one event does to the listeners. */
  lemma {:induction false} ListenerStep(w: World, e: Event)
    requires ListenerOk(w.life) && Fresh(w, e)
    ensures var l, l' := w.life, Step(w, e).life;
      var success := e.Checked? && e.pass.result == 'S' && Completes(OnLaunch(l, |w.table|, e.pass.launch), e.pass);
      && ListenerOk(l')
      && (Leaks(l') <==> Leaks(l) || (success && l.listenerFd >= 0))
      && (l'.listenerFd >= 0 <==>
            (if success then e.pass.listener else l.listenerFd) >= 0 && (e.Checked? ==> e.pass.acceptOk))
  {
    var l, l' := w.life, Step(w, e).life;
    if e.Checked? {
      var mid := OnComplete(w.(life := OnLaunch(l, |w.table|, e.pass.launch)), e.pass).life;
      CompletionLeaks(OnLaunch(l, |w.table|, e.pass.launch), w.table, e.pass);
      AcceptLeaksNone(mid, e.pass.acceptOk);
    }
  }

  lemma {:induction false} CompletionLeaks(l: Life, table: seq<Dev>, pass: Pass)
    requires ListenerOk(l) && (pass.listener >= 0 ==> pass.listener !in l.open)
    ensures var l' := OnComplete(World(table, l), pass).life;
      var success := Completes(l, pass) && pass.result == 'S';
      && ListenerOk(l') && l'.listenerFd == (if success then pass.listener else l.listenerFd)
      && (Leaks(l') <==> Leaks(l) || (success && l.listenerFd >= 0))
  {
    var l' := OnComplete(World(table, l), pass).life;
    if Completes(l, pass) && pass.result == 'S' {
      if fd :| fd in l.open && fd != l.listenerFd { assert fd in l'.open && fd != l'.listenerFd; }
      if l.listenerFd >= 0 { assert l.listenerFd in l'.open && l.listenerFd != l'.listenerFd; }
    }
  }

  lemma {:induction false} AcceptLeaksNone(l: Life, acceptOk: bool)
    requires ListenerOk(l)
    ensures var l' := OnAccept(l, acceptOk);
      ListenerOk(l') && (Leaks(l') <==> Leaks(l)) && (l'.listenerFd >= 0 <==> l.listenerFd >= 0 && acceptOk)
  {
    var l' := OnAccept(l, acceptOk);
    if fd :| fd in l.open && fd != l.listenerFd { assert fd in l'.open && fd != l'.listenerFd; }
  }

  lemma {:induction false} InServiceSnoc(events: seq<Event>)
    requires events != []
    ensures var n := |events| - 1; var e := events[n];
      InService(events) <==>
        (e.Checked? ==> e.pass.acceptOk) &&
        (if Succeeds(events, n) then e.pass.listener >= 0 else InService(events[..n]))
  {
    var n := |events| - 1;
    var before, e := events[..n], events[n];
    forall j | 0 <= j < n ensures Serves(events, j, n + 1) <==> Serves(before, j, n) && (e.Checked? ==> e.pass.acceptOk) {
      ServesPrefix(events, n, j, n);
    }
    forall j | 0 <= j < n ensures LastSuccess(events, j) <==> LastSuccess(before, j) && !Succeeds(events, n) {
      LastSnoc(events, j);
    }
    if Succeeds(events, n) {
      assert Serves(events, n, n + 1) <==> e.pass.listener >= 0 && e.pass.acceptOk;
      assert LastSuccess(events, n);
    } else {
      assert !Serves(events, n, n + 1);
    }
  }

  lemma {:induction false} LastSnoc(events: seq<Event>, j: nat)
    requires j < |events| - 1
    ensures LastSuccess(events, j) <==> LastSuccess(events[..|events| - 1], j) && !Succeeds(events, |events| - 1)
  {
    var n := |events| - 1;
    forall i | j < i < n ensures Succeeds(events[..n], i) <==> Succeeds(events, i) { SucceedsPrefix(events, n, i); }
  }

  lemma {:induction false} OvertakenSnoc(events: seq<Event>)
    requires events != []
    ensures var n := |events| - 1;
      Overtaken(events) <==> Overtaken(events[..n]) || (Succeeds(events, n) && InService(events[..n]))
  {
    var n := |events| - 1;
    var before := events[..n];
    if Overtaken(events) {
      var j, i :| 0 <= j < i < |events| && Serves(events, j, i) && Succeeds(events, i);
      ServesPrefix(events, n, j, i);
      if i < n {
        SucceedsPrefix(events, n, i);
      } else if !LastSuccess(before, j) {
        var m :| j < m < n && Succeeds(before, m);
        assert Serves(before, j, m);
      }
    }
    if Overtaken(before) {
      var j, i :| 0 <= j < i < n && Serves(before, j, i) && Succeeds(before, i);
      ServesPrefix(events, n, j, i);
      SucceedsPrefix(events, n, i);
    }
    if Succeeds(events, n) && InService(before) {
      var j :| 0 <= j < n && Serves(before, j, n) && LastSuccess(before, j);
      ServesPrefix(events, n, j, n);
    }
  }

  lemma {:induction false} ListenersOverRuns(events: seq<Event>)
    requires AllFresh(events)
    ensures var l := Run(events).life;
      ListenerOk(l) && (l.listenerFd >= 0 <==> InService(events)) && (Leaks(l) <==> Overtaken(events))
  {
    if events != [] {
      var n := |events| - 1;
      var before := events[..n];
      assert forall m :: 0 <= m < n ==> before[..m] == events[..m] && before[m] == events[m];
      assert Fresh(Run(before), events[n]);
      ListenersOverRuns(before);
      ListenerStep(Run(before), events[n]);
      InServiceSnoc(events);
      OvertakenSnoc(events);
    }
  }

  /**
   Over any run a listening socket is left open and unknown exactly if some helper succeeds
   while the listener of an earlier success is in service.
   */
  lemma {:induction false} LeakIff(events: seq<Event>)
    requires AllFresh(events)
    ensures Leaks(Run(events).life) <==> Overtaken(events)
  {
    ListenersOverRuns(events);
  }

  /** Two printers, the second announced after the first helper's success, are enough for that. */
  lemma {:induction false} HotPlugLeaksListener(a: Dev, b: Dev)
    requires a.id != b.id
    ensures var pass1 := Pass(Launched(5, 100), true, 'S', 7, true);
      var pass2 := Pass(Launched(8, 101), true, 'S', 9, true);
      var l := Run([Announced(a, true), Checked(pass1), Announced(b, true), Checked(pass2)]).life;
      l.open == {7, 9} && l.listenerFd == 9 && Leaks(l)
  {
    var pass1 := Pass(Launched(5, 100), true, 'S', 7, true);
    var pass2 := Pass(Launched(8, 101), true, 'S', 9, true);
    var es := [Announced(a, true), Checked(pass1), Announced(b, true), Checked(pass2)];
    assert es[..3][..2] == es[..2] && es[..2][..1] == es[..1] && es[..1][..0] == [];
    assert es[..4] == es;
    assert Run(es[..1]).table == [a.(queueCreated := false)];
    assert Run(es[..2]).table == [Mark(a.(queueCreated := false))];
    assert Run(es[..2]).life == Life(Finished, true, -1, -1, 7, 1, 1, {7});
    assert Run(es[..3]).life == Life(Idle, false, -1, -1, 7, 1, 1, {7});
    assert |Run(es[..3]).table| == 2;
    assert 7 in Run(es).life.open;
  }

  /** The module's globals, with the printer manager they go with. */
  class Redirector {
    const manager: PrinterManager
    var setupState: Phase      // g_setup_state
    var setupTriggered: bool   // g_setup_triggered
    var setupPipeFd: int       // g_setup_pipe_fd
    var setupChildPid: int     // g_setup_child_pid
    var listenerFd: int        // g_listener_fd
    ghost var launched: nat
    ghost var reaped: nat
    ghost var open: set<int>

    ghost predicate Valid()
      reads this, manager, manager.printers, manager.devs
    {
      manager.Valid()
    }

    ghost function LifeView(): Life
      reads this
    {
      Life(setupState, setupTriggered, setupPipeFd, setupChildPid, listenerFd, launched, reaped, open)
    }

    ghost function View(): World
      reads this, manager
    {
      World(manager.table, LifeView())
    }

    constructor (sessionId: int, useSessionCupsd: bool)
      ensures Valid() && View() == START && fresh(manager) && fresh(manager.printers)
    {
      manager := new PrinterManager(sessionId, useSessionCupsd);
      setupState, setupTriggered, setupPipeFd, setupChildPid, listenerFd := Idle, false, -1, -1, -1;
      launched, reaped, open := 0, 0, {};
    }

    /** The second half of an announcement: into the table, and the late arrival's rearming. */
    method AddPrinter(id: u32, dosName: string, a: A.Announcement, memory: Memory) returns (rc: int)
      requires Valid()
      modifies this, manager, manager.printers
      ensures Valid()
      ensures var dev := DevFor(id, dosName, a.flags, AsString(a.printer), AsString(a.driver),
                                manager.sessionId, manager.useSessionCupsd, memory);
        && View() == Step(old(View()), Announced(dev, memory.dev))
        && rc == if memory.dev && |old(manager.table)| < 16 && IndexOf(old(manager.table), id) < 0 then 0 else -1
    {
      var dev := manager.Add(id, dosName, a.flags, AsString(a.printer), AsString(a.driver), memory);
      if dev == null { return -1; }
      if setupState.Finished? && setupTriggered {
        setupTriggered, setupState := false, Idle;
      }
      return 0;
    }

    /** `devredir_printer_device_announce` */
    method DeviceAnnounce(id: u32, dosName: string, deviceData: Buffer, memory: Memory) returns (rc: int)
      requires Valid()
      modifies this, manager, manager.printers
      ensures Valid()
      ensures !A.PassesCheck(deviceData) ==> View() == old(View()) && rc == -1
      ensures A.PassesCheck(deviceData) && A.Settles(deviceData) ==>
                var a := A.Meaning(deviceData);
                var dev := DevFor(id, dosName, a.flags, AsString(a.printer), AsString(a.driver),
                                  manager.sessionId, manager.useSessionCupsd, memory);
                && View() == Step(old(View()), Announced(dev, memory.dev))
                && rc == (if memory.dev && |old(manager.table)| < 16 && IndexOf(old(manager.table), id) < 0 then 0 else -1)
    {
      var parsed := A.Parse(deviceData);
      if !parsed.Accepted? { return -1; }
      rc := AddPrinter(id, dosName, parsed.a, memory);
    }

    /** `devredir_printer_device_remove`; the queue to remove is the caller's affair. */
    method DeviceRemove(id: u32) returns (queue: seq<string>)
      requires Valid()
      modifies manager, manager.printers
      ensures Valid() && View() == Step(old(View()), Gone(id))
      ensures queue == match Lookup(old(manager.table), id)
        case None => []
        case Some(d) => if d.queueCreated && d.cupsName.Some? then [d.cupsName.value] else []
      ensures forall x :: Lookup(manager.table, x) == if x == id then None else Lookup(old(manager.table), x)
    {
      queue := [];
      GoneMeans(View(), id);
      var dev, at := manager.Find(id);
      if dev == null {
        RemovedAbsent(manager.table, id);
        return;
      }
      if dev.queueCreated && dev.cupsName.Some? { queue := [dev.cupsName.value]; }
      manager.Remove(id);
    }

    /** `launch_setup_helper`, in the parent. */
    method LaunchSetupHelper(launch: Launch)
      modifies this
      ensures launch.NoLaunch? ==> LifeView() == old(LifeView())
      ensures launch.Launched? ==> LifeView() == old(LifeView()).(phase := Waiting, triggered := true,
                pipeFd := launch.fd, childPid := launch.pid, launched := old(launched) + 1)
    {
      if launch.NoLaunch? { return; }
      setupPipeFd, setupChildPid, setupState, setupTriggered := launch.fd, launch.pid, Waiting, true;
      launched := launched + 1;
    }

    /** The success branch: queues count as created, and the listener is opened. */
    method SetupSucceeded(listener: int)
      requires Valid()
      modifies this`listenerFd, this`open, manager`table, manager.devs
      ensures Valid() && manager.table == Marked(old(manager.table)) && manager.devs == old(manager.devs)
      ensures listenerFd == listener && open == old(open) + if listener >= 0 then {listener} else {}
    {
      manager.MarkAll();
      if listener >= 0 { open := open + {listener}; }
      listenerFd := listener;
    }

    /** `handle_setup_complete`; `sweep` is the session whose stale queues it removes, if any. */
    method HandleSetupComplete(pass: Pass) returns (sweep: Option<int>)
      requires Valid() && Completes(LifeView(), pass)
      modifies this, manager`table, manager.devs
      ensures Valid() && View() == OnComplete(old(View()), pass) && manager.devs == old(manager.devs)
      ensures sweep == if pass.result == 'S' then None else Some(if manager.useSessionCupsd then 0 else manager.sessionId)
    {
      CloseHelper();
      if pass.result == 'S' {
        SetupSucceeded(pass.listener);
        return None;
      }
      return Some(if manager.useSessionCupsd then 0 else manager.sessionId);
    }

    /** The pipe is closed, the child reaped, and the state finished whatever the result. */
    method CloseHelper()
      modifies this`setupPipeFd, this`setupChildPid, this`reaped, this`setupState
      ensures setupPipeFd == -1 && setupState == Finished
      ensures if old(setupChildPid) > 0 then setupChildPid == -1 && reaped == old(reaped) + 1
              else setupChildPid == old(setupChildPid) && reaped == old(reaped)
    {
      setupPipeFd := -1;
      if setupChildPid > 0 {
        setupChildPid := -1;
        reaped := reaped + 1;
      }
      setupState := Finished;
    }

    /**
     `devredir_printer_check_wait_objs`; `serves` says whether the pass goes on to the backend
     connections (`Slots.ConnTable.CheckAll`).
     */
    method CheckWaitObjs(pass: Pass) returns (sweep: Option<int>, serves: bool)
      requires Valid()
      modifies this, manager`table, manager.devs
      ensures Valid() && View() == Step(old(View()), Checked(pass)) && manager.devs == old(manager.devs)
      ensures var l := OnLaunch(old(LifeView()), |old(manager.table)|, pass.launch);
        && sweep == (if !Completes(l, pass) || pass.result == 'S' then None
                     else Some(if manager.useSessionCupsd then 0 else manager.sessionId))
        && serves == (OnComplete(World(old(manager.table), l), pass).life.listenerFd >= 0)
    {
      if setupState.Idle? && !setupTriggered && manager.count > 0 {
        LaunchSetupHelper(pass.launch);
      }
      sweep := CheckHelper(pass);
      serves := Accept(pass.acceptOk);
    }

    /** A helper waited for is looked after once its pipe is readable. */
    method CheckHelper(pass: Pass) returns (sweep: Option<int>)
      requires Valid()
      modifies this, manager`table, manager.devs
      ensures Valid() && View() == OnComplete(old(View()), pass) && manager.devs == old(manager.devs)
      ensures sweep == if !Completes(old(LifeView()), pass) || pass.result == 'S' then None
                       else Some(if manager.useSessionCupsd then 0 else manager.sessionId)
    {
      sweep := None;
      if setupState.Waiting? && setupPipeFd >= 0 && pass.readable {
        sweep := HandleSetupComplete(pass);
      }
    }

    /** Accepting on the listener, which is closed when that fails. */
    method Accept(acceptOk: bool) returns (serves: bool)
      modifies this`listenerFd, this`open
      ensures LifeView() == OnAccept(old(LifeView()), acceptOk) && serves == (old(listenerFd) >= 0)
    {
      serves := listenerFd >= 0;
      if listenerFd >= 0 && !acceptOk {
        open := open - {listenerFd};
        listenerFd := -1;
      }
    }
  }

  /** Bytes as the characters of a C string. */
  function AsString(b: seq<byte>): (s: string)
    ensures |s| == |b| && forall i :: 0 <= i < |s| ==> s[i] == b[i] as char
  {
    if b == [] then "" else [b[0] as char] + AsString(b[1..])
  }
}
