/** How the shell and its children pass support structures and the shell semaphore along
    (phase3/sysSupport.c, phase3/initProc.c): ExecuteSys, TerminateSys and test() as
    interleaved steps between system calls. */
module Handoff {
  import opened Seqs
  import opened Counting

  const ROOT: nat := 0
  const SHELL: nat := 1

  /** Where the shell is; child is the process of the last successful CREATEPROCESS. */
  datatype ShellPhase =
    | Running                    // user code
    | Allocated(sup: nat)        // in ExecuteSys, between allocateSupport and CREATEPROCESS
    | Launched(child: nat)       // before PASSEREN on shellSemaphore
    | Blocked(child: nat)        // inside it
    | ShellFreed                 // TerminateSys: swap frames freed
    | ShellReturned              // support structure given back
    | ShellSignalled             // VERHOGEN on masterSemaphore done
    | ShellGone

  datatype ChildPhase =
    | Alive(sup: nat)
    | Freed(sup: nat)
    | Returned
    | Signalled                  // VERHOGEN on shellSemaphore done, TERMPROCESS still to come

  datatype RootPhase = Starting | Asleep | Awake

  datatype State = State(
    free: seq<nat>,
    shellSup: nat,
    shell: ShellPhase,
    children: map<nat, ChildPhase>,
    shellSem: Sema,
    masterSem: Sema,
    root: RootPhase)

  datatype Event =
    | Allocate
    | AllocateFails
    | Create(child: nat)
    | CreateFails
    | WaitChild
    | ChildFrees(c: nat)
    | ChildReturns(c: nat)
    | ChildSignals(c: nat)
    | ChildEnds(c: nat)
    | ShellFrees
    | ShellReturns
    | ShellSignals
    | ShellEnds
    | RootWaits

  predicate Enabled(s: State, e: Event) {
    match e
    case Allocate => s.shell.Running? && s.free != []
    case AllocateFails => s.shell.Running? && s.free == []
    case Create(c) => s.shell.Allocated? && c !in s.children && c != ROOT && c != SHELL
    case CreateFails => s.shell.Allocated?
    case WaitChild => s.shell.Launched?
    case ChildFrees(c) => c in s.children && s.children[c].Alive?
    case ChildReturns(c) => c in s.children && s.children[c].Freed?
    case ChildSignals(c) => c in s.children && s.children[c].Returned?
    case ChildEnds(c) => c in s.children && s.children[c].Signalled?
    case ShellFrees => s.shell.Running?
    case ShellReturns => s.shell.ShellFreed?
    case ShellSignals => s.shell.ShellReturned?
    case ShellEnds => s.shell.ShellSignalled?
    case RootWaits => s.root.Starting?
  }

  /** VERHOGEN on shellSemaphore: a shell waiting in PASSEREN is let through. */
  function Wake(s: State): State {
    s.(shellSem := Up(s.shellSem), shell := if s.shellSem.queue != [] then Running else s.shell)
  }

  function Next(s: State, e: Event): State
    requires Enabled(s, e)
  {
    match e
    case Allocate => s.(free := s.free[1..], shell := Allocated(s.free[0]))
    case AllocateFails => s
    case Create(c) => s.(children := s.children[c := Alive(s.shell.sup)], shell := Launched(c))
    case CreateFails => s.(free := [s.shell.sup] + s.free, shell := Running)
    case WaitChild =>
      s.(shellSem := DownBy(s.shellSem, SHELL),
          shell := if s.shellSem.value <= 0 then Blocked(s.shell.child) else Running)
    case ChildFrees(c) => s.(children := s.children[c := Freed(s.children[c].sup)])
    case ChildReturns(c) => s.(free := [s.children[c].sup] + s.free, children := s.children[c := Returned])
    case ChildSignals(c) => Wake(s.(children := s.children[c := Signalled]))
    case ChildEnds(c) => s.(children := s.children - {c})
    case ShellFrees => s.(shell := ShellFreed)
    case ShellReturns => s.(free := [s.shellSup] + s.free, shell := ShellReturned)
    case ShellSignals =>
      s.(masterSem := Up(s.masterSem), shell := ShellSignalled,
          root := if s.masterSem.queue != [] then Awake else s.root)
    case ShellEnds => s.(children := map[], shell := ShellGone)
    case RootWaits => s.(masterSem := DownBy(s.masterSem, ROOT),
        root := if s.masterSem.value <= 0 then Asleep else Awake)
  }

  // ---------------------------------------------------------------- the invariant

  predicate HoldsSup(ph: ChildPhase) {
    ph.Alive? || ph.Freed?
  }

  predicate ShellHolds(ph: ShellPhase) {
    !ph.ShellReturned? && !ph.ShellSignalled? && !ph.ShellGone?
  }

  /** c has been started and has not yet signalled the shell. */
  predicate Pending(s: State, c: nat) {
    c in s.children && !s.children[c].Signalled?
  }

  /** The shell waits for exactly one child, and the semaphore remembers exactly its signal. */
  ghost predicate Token(s: State) {
    match s.shell
    case Launched(c) =>
      && (forall d | Pending(s, d) :: d == c)
      && s.shellSem == (if Pending(s, c) then Sema(0, []) else Sema(1, []))
    case Blocked(c) => Pending(s, c) && (forall d | Pending(s, d) :: d == c) && s.shellSem == Sema(0, [SHELL])
    case _ => (forall d :: !Pending(s, d)) && s.shellSem == Sema(0, [])
  }

  /** A support structure is in use: the shell's, the one being handed to a child, a child's. */
  ghost predicate InUse(s: State, x: nat) {
    || (ShellHolds(s.shell) && x == s.shellSup)
    || (s.shell.Allocated? && x == s.shell.sup)
    || (exists c :: c in s.children && HoldsSup(s.children[c]) && s.children[c].sup == x)
  }

  /** Each of the n structures is either free, once, or in use, by one owner. */
  ghost predicate PoolOK(s: State, n: nat) {
    && NoDup(s.free)
    && (forall j | 0 <= j < |s.free| :: s.free[j] < n)
    && s.shellSup < n && (s.shell.Allocated? ==> s.shell.sup < n && s.shell.sup != s.shellSup)
    && (forall c | c in s.children && HoldsSup(s.children[c]) ::
        s.children[c].sup < n && s.children[c].sup != s.shellSup)
    && (forall x | 0 <= x < n :: x in s.free <==> !InUse(s, x))
  }

  /** The root is let through only after the shell has given everything back. */
  ghost predicate MasterOK(s: State) {
    if s.shell.ShellSignalled? || s.shell.ShellGone? then
      s.root.Asleep? == false && s.masterSem == (if s.root.Starting? then Sema(1, []) else Sema(0, []))
    else
      !s.root.Awake? && s.masterSem == (if s.root.Starting? then Sema(0, []) else Sema(0, [ROOT]))
  }

  ghost predicate Inv(s: State, n: nat) {
    Token(s) && PoolOK(s, n) && MasterOK(s)
  }

  // ---------------------------------------------------------------- every step keeps it

  lemma TokenStep(s: State, e: Event, n: nat)
    requires Inv(s, n) && Enabled(s, e)
    ensures Token(Next(s, e))
  {
    hide PoolOK, MasterOK;
    var r := Next(s, e);
    match e
    case ChildSignals(c) =>
      assert Pending(s, c);
      assert forall d :: Pending(s, d) ==> d == c;
      assert forall d :: Pending(r, d) ==> Pending(s, d) && d != c;
    case ChildFrees(c) => assert Pending(s, c); assert forall d :: Pending(r, d) == Pending(s, d);
    case ChildReturns(c) => assert Pending(s, c); assert forall d :: Pending(r, d) == Pending(s, d);
    case ChildEnds(c) => assert forall d :: Pending(r, d) == Pending(s, d);
    case ShellEnds => assert forall d :: !Pending(r, d);
    case Create(c) => assert forall d :: Pending(r, d) ==> d == c || Pending(s, d);
    case _ => assert forall d :: Pending(r, d) == Pending(s, d);
  }

  lemma MasterStep(s: State, e: Event, n: nat)
    requires Inv(s, n) && Enabled(s, e)
    ensures MasterOK(Next(s, e))
  {
    hide PoolOK;
  }

  /** A structure goes back: it was in use by its owner alone. */
  lemma PoolReturns(s: State, r: State, n: nat, x: nat)
    requires PoolOK(s, n) && x < n && InUse(s, x) && r.free == [x] + s.free && r.shellSup == s.shellSup
    requires r.shell.Allocated? ==> r.shell == s.shell
    requires forall c | c in r.children && HoldsSup(r.children[c]) :: c in s.children && r.children[c] == s.children[c]
    requires forall y | 0 <= y < n :: InUse(r, y) <==> InUse(s, y) && y != x
    ensures PoolOK(r, n)
  {
    assert x !in s.free;
    assert forall y {:trigger y in r.free} :: y in r.free <==> y == x || y in s.free;
  }

  lemma PoolStep(s: State, e: Event, n: nat)
    requires Inv(s, n) && Enabled(s, e)
    ensures PoolOK(Next(s, e), n)
  {
    hide MasterOK, NoDup;
    var r := Next(s, e);
    match e
    case Allocate => PoolTaken(s, n);
    case Create(c) => PoolHanded(s, n, c);
    case CreateFails => PoolHandedBack(s, n);
    case ChildReturns(c) => PoolChild(s, n, c);
    case ShellReturns => PoolShell(s, n);
    case ChildFrees(c) => PoolSame(s, r, n);
    case ChildSignals(c) => PoolSame(s, r, n);
    case ChildEnds(c) => PoolSame(s, r, n);
    case ShellEnds => NoHolder(s); PoolSame(s, r, n);
    case _ => PoolSame(s, r, n);
  }

  /** Steps that change no owner. */
  lemma PoolSame(s: State, r: State, n: nat)
    requires PoolOK(s, n) && r.free == s.free && r.shellSup == s.shellSup
    requires s.shell.Allocated? || r.shell.Allocated? ==> r.shell == s.shell
    requires ShellHolds(r.shell) == ShellHolds(s.shell)
    requires forall c | c in r.children && HoldsSup(r.children[c]) ::
               c in s.children && HoldsSup(s.children[c]) && s.children[c].sup == r.children[c].sup
    requires forall c | c in s.children && HoldsSup(s.children[c]) ::
               c in r.children && HoldsSup(r.children[c]) && s.children[c].sup == r.children[c].sup
    ensures PoolOK(r, n)
  {
    hide NoDup;
    assert forall x :: InUse(r, x) <==> InUse(s, x);
  }

  lemma PoolTaken(s: State, n: nat)
    requires PoolOK(s, n) && s.shell.Running? && s.free != []
    ensures PoolOK(Next(s, Allocate), n)
  {
    var r, x := Next(s, Allocate), s.free[0];
    assert x in s.free && !InUse(s, x);
    assert forall y {:trigger y in r.free} :: y in r.free <==> y in s.free && y != x;
    assert forall j | 0 <= j < |r.free| :: r.free[j] == s.free[j + 1];
    forall y | 0 <= y < n ensures InUse(r, y) <==> InUse(s, y) || y == x {
    }
    assert x != s.shellSup;
  }

  lemma PoolHanded(s: State, n: nat, c: nat)
    requires PoolOK(s, n) && Enabled(s, Create(c))
    ensures PoolOK(Next(s, Create(c)), n)
  {
    hide NoDup;
    var r := Next(s, Create(c));
    forall y | 0 <= y < n ensures InUse(r, y) <==> InUse(s, y) {
      if InUse(r, y) && !(y == s.shellSup) && y != s.shell.sup {
        var d :| d in r.children && HoldsSup(r.children[d]) && r.children[d].sup == y;
        assert d in s.children && HoldsSup(s.children[d]) && s.children[d].sup == y;
      }
      if InUse(s, y) && !(y == s.shellSup) {
        if y == s.shell.sup {
          assert c in r.children && HoldsSup(r.children[c]) && r.children[c].sup == y;
        } else {
          var d :| d in s.children && HoldsSup(s.children[d]) && s.children[d].sup == y;
          assert d in r.children && HoldsSup(r.children[d]) && r.children[d].sup == y;
        }
      }
    }
  }

  /** In ExecuteSys no child holds a structure. */
  lemma PoolHandedBack(s: State, n: nat)
    requires Inv(s, n) && s.shell.Allocated?
    ensures PoolOK(Next(s, CreateFails), n)
  {
    hide NoDup;
    NoHolder(s);
    PoolReturns(s, Next(s, CreateFails), n, s.shell.sup);
  }

  lemma NoHolder(s: State)
    requires Token(s) && !s.shell.Launched? && !s.shell.Blocked?
    ensures forall c | c in s.children :: !HoldsSup(s.children[c])
  {
    forall c | c in s.children ensures !HoldsSup(s.children[c]) {
      assert !Pending(s, c);
    }
  }

  lemma PoolChild(s: State, n: nat, c: nat)
    requires Inv(s, n) && Enabled(s, ChildReturns(c))
    ensures PoolOK(Next(s, ChildReturns(c)), n)
  {
    hide NoDup;
    OnlyHolder(s, c);
    PoolReturns(s, Next(s, ChildReturns(c)), n, s.children[c].sup);
  }

  lemma OnlyHolder(s: State, c: nat)
    requires Token(s) && c in s.children && HoldsSup(s.children[c])
    ensures (s.shell.Launched? || s.shell.Blocked?) && s.shell.child == c
    ensures forall d | d in s.children && HoldsSup(s.children[d]) :: d == c
  {
    assert Pending(s, c);
    forall d | d in s.children && HoldsSup(s.children[d]) ensures d == c {
      assert Pending(s, d);
    }
  }

  lemma PoolShell(s: State, n: nat)
    requires Inv(s, n) && s.shell.ShellFreed?
    ensures PoolOK(Next(s, ShellReturns), n)
  {
    hide NoDup;
    NoHolder(s);
    PoolReturns(s, Next(s, ShellReturns), n, s.shellSup);
  }

  lemma StepKeeps(s: State, e: Event, n: nat)
    requires Inv(s, n) && Enabled(s, e)
    ensures Inv(Next(s, e), n)
  {
    hide Token, PoolOK, MasterOK;
    TokenStep(s, e, n);
    PoolStep(s, e, n);
    MasterStep(s, e, n);
  }

  // ---------------------------------------------------------------- runs

  ghost predicate Legal(s: State, es: seq<Event>)
    decreases |es|
  {
    es == [] || (Enabled(s, es[0]) && Legal(Next(s, es[0]), es[1..]))
  }

  function Run(s: State, es: seq<Event>): State
    requires Legal(s, es)
    decreases |es|
  {
    if es == [] then s else Run(Next(s, es[0]), es[1..])
  }

  /** test(): the pool filled, the shell created with the first structure. */
  function Start(n: nat): State
    requires n > 0
  {
    State(Descending(n - 1), n - 1, Running, map[], Sema(0, []), Sema(0, []), Starting)
  }

  lemma StartInv(n: nat)
    requires n > 0
    ensures Inv(Start(n), n)
  {
    hide Descending;
    DescendingAll(n - 1);
  }

  lemma {:induction false} RunKeeps(s: State, es: seq<Event>, n: nat)
    requires Inv(s, n) && Legal(s, es)
    ensures Inv(Run(s, es), n)
    decreases |es|
  {
    hide Inv, Enabled, Next;
    if es != [] {
      StepKeeps(s, es[0], n);
      RunKeeps(Next(s, es[0]), es[1..], n);
    }
  }

  // ---------------------------------------------------------------- what it gives

  ghost function Used(s: State, n: nat): set<nat> {
    set x | 0 <= x < n && InUse(s, x)
  }

  /** At most the shell's structure and one more are in use. */
  lemma UsedAtMostTwo(s: State, n: nat)
    requires Inv(s, n)
    ensures |Used(s, n)| <= 2 && |s.free| + |Used(s, n)| == n
  {
    hide MasterOK;
    var other := if s.shell.Allocated? then s.shell.sup
                 else if (s.shell.Launched? || s.shell.Blocked?) && s.shell.child in s.children &&
                     HoldsSup(s.children[s.shell.child])
                 then s.children[s.shell.child].sup else s.shellSup;
    forall x | x in Used(s, n) ensures x in {s.shellSup, other} {
      if x != s.shellSup && !(s.shell.Allocated? && x == s.shell.sup) {
        var c :| c in s.children && HoldsSup(s.children[c]) && s.children[c].sup == x;
        OnlyHolder(s, c);
      }
    }
    SubsetCard(Used(s, n), {s.shellSup, other});
    ElemsCard(s.free);
    assert Elems(s.free) + Used(s, n) == Range(n) by {
      forall x | x in Elems(s.free) ensures x in Range(n) {
        var j :| 0 <= j < |s.free| && s.free[j] == x;
      }
    }
    assert Elems(s.free) !! Used(s, n) by {
      forall x | x in Elems(s.free) ensures x !in Used(s, n) {
        var j :| 0 <= j < |s.free| && s.free[j] == x;
      }
    }
  }

  /** In every run, with UPROCMAX = n >= 2: free and used structures add up to n, at most two
      are used, and ExecuteSys never finds allocateSupport returning NULL. */
  lemma NeverRunsOut(n: nat, es: seq<Event>)
    requires n >= 2 && Legal(Start(n), es)
    ensures var s := Run(Start(n), es);
            |s.free| + |Used(s, n)| == n && |Used(s, n)| <= 2 && !Enabled(s, AllocateFails)
  {
    hide Legal, Run, Start;
    var s := Run(Start(n), es);
    StartInv(n);
    RunKeeps(Start(n), es, n);
    UsedAtMostTwo(s, n);
    if s.shell.Running? {
      OneUsed(s, n);
    }
  }

  lemma OneUsed(s: State, n: nat)
    requires Inv(s, n) && s.shell.Running?
    ensures |Used(s, n)| <= 1
  {
    hide MasterOK;
    NoHolder(s);
    assert Used(s, n) <= {s.shellSup};
    SubsetCard(Used(s, n), {s.shellSup});
  }

  /** The shell comes back from a successful ExecuteSys only when the child it started has
      freed its frames and returned its support structure; and the other way round, a shell
      still in ExecuteSys has its child's signal ahead of it. */
  lemma ResumesAfterChild(n: nat, es: seq<Event>, e: Event)
    requires n >= 2 && Legal(Start(n), es) && Enabled(Run(Start(n), es), e)
    ensures var s := Run(Start(n), es);
            var r := Next(s, e);
            && ((s.shell.Launched? || s.shell.Blocked?) && r.shell.Running? ==>
                  (s.shell.child in r.children ==> r.children[s.shell.child].Signalled?) && |Used(r, n)| == 1)
            && (s.shell.Blocked? ==> Pending(s, s.shell.child))
  {
    hide Legal, Run, Start;
    var s := Run(Start(n), es);
    var r := Next(s, e);
    StartInv(n);
    RunKeeps(Start(n), es, n);
    StepKeeps(s, e, n);
    if (s.shell.Launched? || s.shell.Blocked?) && r.shell.Running? {
      assert !Pending(r, s.shell.child);
      OneUsed(r, n);
      assert s.shellSup in Used(r, n);
    }
  }

  /** The root process gets past masterSemaphore only after the shell has returned its
      structure and no child is left that has not. */
  lemma RootResumesLast(n: nat, es: seq<Event>)
    requires n >= 2 && Legal(Start(n), es) && Run(Start(n), es).root.Awake?
    ensures var s := Run(Start(n), es); Used(s, n) == {} && |s.free| == n && forall c :: !Pending(s, c)
  {
    hide Legal, Run, Start;
    var s := Run(Start(n), es);
    StartInv(n);
    RunKeeps(Start(n), es, n);
    NoHolder(s);
    assert Used(s, n) == {};
    UsedAtMostTwo(s, n);
  }

  // ---------------------------------------------------------------- who moves on, when and where to

  /** c has signalled, or has already ended: the shell has nothing left to wait for. */
  predicate Done(s: State, c: nat) {
    c in s.children ==> s.children[c].Signalled?
  }

  /** What each phase of the shell ends with, and where it leads: in ExecuteSys a CREATEPROCESS
      that fails gives the structure back, and the two ways through PASSEREN lead to user code,
      at once when the child has signalled, else exactly with its signal. */
  ghost predicate ShellMoves(s: State, e: Event, r: State) {
    match s.shell
    case Running =>
      if e.Allocate? then s.free != [] && r.shell == Allocated(s.free[0]) && s.free == [s.free[0]] + r.free
      else r.shell == if e.ShellFrees? then ShellFreed else Running
    case Allocated(sup) =>
      if e.Create? then
        && e.child !in s.children && r.shell == Launched(e.child) && r.free == s.free
        && r.children == s.children[e.child := Alive(sup)]
      else if e.CreateFails? then r.shell == Running && r.free == [sup] + s.free && r.children == s.children
      else r.shell == s.shell
    case Launched(c) =>
      r.shell == if !e.WaitChild? then s.shell else if Done(s, c) then Running else Blocked(c)
    case Blocked(c) => !Done(s, c) && r.shell == if e == ChildSignals(c) then Running else Blocked(c)
    case ShellFreed =>
      if e.ShellReturns? then r.shell == ShellReturned && r.free == [s.shellSup] + s.free
      else r.shell == ShellFreed
    case ShellReturned => r.shell == if e.ShellSignals? then ShellSignalled else ShellReturned
    case ShellSignalled => r.shell == if e.ShellEnds? then ShellGone else ShellSignalled
    case ShellGone => r.shell == ShellGone
  }

  /** The root passes PASSEREN at once when the shell has already signalled, and is otherwise
      let through exactly by the shell's VERHOGEN. */
  predicate RootMoves(s: State, e: Event, r: State) {
    match s.root
    case Starting =>
      r.root == if !e.RootWaits? then Starting
                else if s.shell.ShellSignalled? || s.shell.ShellGone? then Awake else Asleep
    case Asleep => r.root == if e.ShellSignals? then Awake else Asleep
    case Awake => r.root == Awake
  }

  /** A child moves by its own steps alone, and gives its structure back in the second;
      TERMPROCESS of the shell takes every child with it. */
  predicate ChildMoves(s: State, e: Event, r: State, c: nat)
    requires c in s.children
  {
    if e.ShellEnds? then c !in r.children else
    match s.children[c]
    case Alive(sup) => c in r.children && r.children[c] == if e == ChildFrees(c) then Freed(sup) else Alive(sup)
    case Freed(sup) =>
      && c in r.children && r.children[c] == (if e == ChildReturns(c) then Returned else Freed(sup))
      && (e == ChildReturns(c) ==> r.free == [sup] + s.free)
    case Returned => c in r.children && r.children[c] == if e == ChildSignals(c) then Signalled else Returned
    case Signalled => if e == ChildEnds(c) then c !in r.children else c in r.children && r.children[c].Signalled?
  }

  lemma MovesStep(s: State, e: Event, n: nat)
    requires Inv(s, n) && Enabled(s, e)
    ensures ShellMoves(s, e, Next(s, e)) && RootMoves(s, e, Next(s, e))
    ensures forall c | c in s.children :: ChildMoves(s, e, Next(s, e), c)
    ensures Next(s, e).shellSup == s.shellSup
    ensures forall c | c in Next(s, e).children :: c in s.children || e == Create(c)
  {
    hide PoolOK;
    if e.ChildSignals? {
      assert Pending(s, e.c);
    }
    if s.shell.Launched? {
      assert Pending(s, s.shell.child) == !Done(s, s.shell.child);
    }
  }

  /** In every state of every run: the phases end as above, and no others. */
  lemma EveryMove(n: nat, es: seq<Event>, e: Event)
    requires n > 0 && Legal(Start(n), es) && Enabled(Run(Start(n), es), e)
    ensures var s := Run(Start(n), es);
            var r := Next(s, e);
            && ShellMoves(s, e, r) && RootMoves(s, e, r)
            && (forall c | c in s.children :: ChildMoves(s, e, r, c))
            && (forall c | c in r.children :: c in s.children || e == Create(c))
            && r.shellSup == s.shellSup
  {
    hide Legal, Run, Start, Inv, ShellMoves, RootMoves, ChildMoves, Enabled, Next;
    StartInv(n);
    RunKeeps(Start(n), es, n);
    MovesStep(Run(Start(n), es), e, n);
  }

  /** The steps the child still has to make up to its signal. */
  function Left(s: State, c: nat): nat {
    if c !in s.children then 0 else
    match s.children[c] case Alive(_) => 3 case Freed(_) => 2 case Returned => 1 case Signalled => 0
  }

  function OwnStep(s: State, c: nat): Event
    requires Pending(s, c)
  {
    match s.children[c] case Alive(_) => ChildFrees(c) case Freed(_) => ChildReturns(c) case _ => ChildSignals(c)
  }

  function StepsOf(es: seq<Event>, c: nat): nat {
    if es == [] then 0
    else (if es[0] in {ChildFrees(c), ChildReturns(c), ChildSignals(c)} then 1 else 0) + StepsOf(es[1..], c)
  }

  /** At some point of the run the shell is in user code. */
  ghost predicate Resumes(s: State, es: seq<Event>)
    requires Legal(s, es)
    decreases |es|
  {
    s.shell.Running? || (es != [] && Resumes(Next(s, es[0]), es[1..]))
  }

  lemma BlockedStep(s: State, e: Event, c: nat, n: nat)
    requires Inv(s, n) && s.shell == Blocked(c) && Enabled(s, e)
    ensures Pending(s, c) && Enabled(s, OwnStep(s, c))
    ensures var r := Next(s, e);
            && r.shell == (if e == ChildSignals(c) then Running else Blocked(c))
            && StepsOf([e], c) + Left(r, c) == Left(s, c)
  {
    hide PoolOK, MasterOK;
    MovesStep(s, e, n);
  }

  /** Until then it is blocked, its child can move, and each of the child's steps leaves one
      step fewer. */
  lemma {:induction false} CountsDown(s: State, es: seq<Event>, c: nat, n: nat)
    requires Inv(s, n) && s.shell == Blocked(c) && Legal(s, es)
    ensures Resumes(s, es) ||
            (var r := Run(s, es);
             && r.shell == Blocked(c) && Pending(r, c) && Enabled(r, OwnStep(r, c))
             && StepsOf(es, c) + Left(r, c) == Left(s, c))
    decreases |es|
  {
    hide Inv, Enabled, Next, Pending, Left, OwnStep;
    if es == [] {
      StillPending(s, c, n);
    } else {
      StepKeeps(s, es[0], n);
      BlockedStep(s, es[0], c, n);
      assert StepsOf(es, c) == StepsOf([es[0]], c) + StepsOf(es[1..], c);
      if es[0] != ChildSignals(c) {
        CountsDown(Next(s, es[0]), es[1..], c, n);
      }
    }
  }

  lemma StillPending(s: State, c: nat, n: nat)
    requires Inv(s, n) && s.shell == Blocked(c)
    ensures Pending(s, c) && Enabled(s, OwnStep(s, c)) && 1 <= Left(s, c) <= 3
  {
    hide PoolOK, MasterOK;
  }

  /** Whatever run led the shell into waiting for c, and whatever interleaving follows: it is
      back in user code once c has made its remaining steps, three at most, the last of them
      the signal; and while it waits, c can always make the next one. */
  lemma ShellResumes(n: nat, before: seq<Event>, es: seq<Event>, c: nat)
    requires n > 0 && Legal(Start(n), before) && Run(Start(n), before).shell == Blocked(c)
    requires Legal(Run(Start(n), before), es)
    ensures var s := Run(Start(n), before);
            && 1 <= Left(s, c) <= 3
            && (StepsOf(es, c) >= Left(s, c) ==> Resumes(s, es))
            && (!Resumes(s, es) ==> Pending(Run(s, es), c) && Enabled(Run(s, es), OwnStep(Run(s, es), c)))
  {
    hide Legal, Run, Start, Inv, Resumes, Enabled, Next, Pending, Left, OwnStep, StepsOf;
    var s := Run(Start(n), before);
    StartInv(n);
    RunKeeps(Start(n), before, n);
    StillPending(s, c, n);
    CountsDown(s, es, c, n);
    if !Resumes(s, es) {
      var r := Run(s, es);
      RunKeeps(s, es, n);
      StillPending(r, c, n);
    }
  }
}
