/** The object caches of `kernel/mm/slab.c`: per-CPU magazines and a depot over slabs of buffers, for
    objects of at most 512 bytes without a constructor. Each step is what the code does without
    releasing the lock that its caller holds, so steps of different CPUs interleave freely. There are two
    exceptions: the creation of a slab, which the code does without a lock and which is one step here,
    and a reload, which holds the lock of its CPU throughout but takes and releases the lock of the depot
    twice, once for each magazine that it moves, and which is one step here. */
module SlabCache {
  import opened Common
  import opened SlabGeometry

  /** Where a magazine is. */
  datatype Spot = LoadedIn(cpu: nat) | PreviousIn(cpu: nat) | FullList | EmptyList

  /** Where an object is. */
  datatype Home = Live | InMagazine(mag: nat) | InSlab

  /** `struct kmem_cpu`. A count of -1 goes with an absent magazine. */
  datatype Cpu = Cpu(loaded: Option<nat>, rounds: int, previous: Option<nat>, prevRounds: int)

  /** `struct kmem_cache`. A slab is named by its page, a magazine by its number; `rounds` holds the
      memory of every magazine, including stale words, and `buflist` the free list of every
      slab, by buffer: the link of a free buffer
      lies `layout.offset` into it. `spot`, `bufs` and `home` are bookkeeping that no step reads. */
  datatype Cache = Cache(
    size: nat, cpus: seq<Cpu>, full: seq<nat>, empty: seq<nat>, rounds: map<nat, seq<nat>>,
    slabs: seq<nat>, fullSlabs: seq<nat>, buflist: map<nat, seq<nat>>, refcount: map<nat, nat>,
    color: nat, layout: Layout,
    spot: map<nat, Spot>, bufs: map<nat, set<nat>>, home: map<nat, Home>)

  /** The abstract allocator: the objects that are handed out. */
  function LiveSet(s: Cache): set<nat> {
    set o | o in s.home && s.home[o].Live?
  }

  lemma LiveAdds(s: Cache, s': Cache, o: nat)
    requires s'.home == s.home[o := Live]
    ensures LiveSet(s') == LiveSet(s) + {o}
  {
  }

  lemma LiveDrops(s: Cache, s': Cache, o: nat, h: Home)
    requires s'.home == s.home[o := h] && !h.Live?
    ensures LiveSet(s') == LiveSet(s) - {o}
  {
  }

  lemma DistinctTail(q: seq<nat>)
    requires Distinct(q) && q != []
    ensures Distinct(q[1..]) && q[0] !in q[1..]
    ensures forall x :: x in q <==> x == q[0] || x in q[1..]
  {
    assert q == [q[0]] + q[1..];
  }

  lemma DistinctCons(x: nat, q: seq<nat>)
    requires Distinct(q) && x !in q
    ensures Distinct([x] + q)
    ensures forall y :: y in [x] + q <==> y == x || y in q
  {
  }

  // ---------------------------------------------------------------------------
  // Magazines
  // ---------------------------------------------------------------------------

  /** The magazine layer's shape: the previous magazine is absent, empty or full, and the counts stay
      inside the magazines. */
  predicate CpuOk(s: Cache, c: nat)
    requires c < |s.cpus|
  {
    var cpu := s.cpus[c];
    && (match cpu.loaded
        case None => cpu.rounds == -1 && cpu.previous.None?
        case Some(m) => 0 <= cpu.rounds <= s.size && m in s.spot && s.spot[m] == LoadedIn(c))
    && (match cpu.previous
        case None => cpu.prevRounds == -1
        case Some(m) => (cpu.prevRounds == 0 || cpu.prevRounds == s.size) && m in s.spot && s.spot[m] == PreviousIn(c))
  }

  predicate SpotOk(s: Cache, m: nat)
    requires m in s.spot
  {
    match s.spot[m]
    case LoadedIn(c) => c < |s.cpus| && s.cpus[c].loaded == Some(m)
    case PreviousIn(c) => c < |s.cpus| && s.cpus[c].previous == Some(m)
    case FullList => m in s.full
    case EmptyList => m in s.empty
  }

  ghost predicate MagazinesOk(s: Cache) {
    && s.size > 0 && s.spot.Keys == s.rounds.Keys
    && (forall c :: 0 <= c < |s.cpus| ==> CpuOk(s, c))
    && (forall m :: m in s.spot ==> SpotOk(s, m) && |s.rounds[m]| == s.size)
    && (forall m :: m in s.full ==> m in s.spot && s.spot[m].FullList?)
    && (forall m :: m in s.empty ==> m in s.spot && s.spot[m].EmptyList?)
    && Distinct(s.full) && Distinct(s.empty)
  }

  /** How many rounds of a magazine are objects. */
  function Fill(s: Cache, m: nat): nat
    requires m in s.spot
  {
    match s.spot[m]
    case LoadedIn(c) => if c < |s.cpus| && s.cpus[c].rounds >= 0 then s.cpus[c].rounds else 0
    case PreviousIn(c) => if c < |s.cpus| && s.cpus[c].prevRounds >= 0 then s.cpus[c].prevRounds else 0
    case FullList => s.size
    case EmptyList => 0
  }

  function Contents(s: Cache, m: nat): seq<nat> {
    if m in s.spot && m in s.rounds && Fill(s, m) <= |s.rounds[m]| then s.rounds[m][..Fill(s, m)] else []
  }

  predicate Holds(s: Cache, m: nat, o: nat) {
    o in s.home && s.home[o] == InMagazine(m)
  }

  ghost predicate RoundsOk(s: Cache) {
    && (forall m :: m in s.spot ==> Distinct(Contents(s, m)))
    && (forall m, o :: m in s.spot ==> (o in Contents(s, m) <==> Holds(s, m, o)))
    && (forall o :: o in s.home && s.home[o].InMagazine? ==> s.home[o].mag in s.spot)
  }

  // ---------------------------------------------------------------------------
  // Slabs
  // ---------------------------------------------------------------------------

  /** One slab: its free list and its count add up to its buffers, which are as many as fit, and it is
      listed by whether it has a free buffer. */
  predicate SlabOk(s: Cache, p: nat)
    requires p in s.bufs
  {
    && p in s.buflist && p in s.refcount
    && Distinct(s.buflist[p])
    && s.layout.chunk > 0 && s.refcount[p] + |s.buflist[p]| == |s.bufs[p]| == Capacity(s.layout, 0)
    && (p in s.slabs <==> s.buflist[p] != []) && (p in s.fullSlabs <==> s.buflist[p] == [])
  }

  /** A buffer belongs to the slab of its page, and is on that slab's free list exactly when it is
      neither handed out nor in a magazine. */
  predicate BufferOk(s: Cache, p: nat, o: nat)
    requires p in s.bufs && p in s.buflist
  {
    && (o in s.bufs[p] <==> o / PAGE_SIZE == p && o in s.home)
    && (o in s.buflist[p] <==> o in s.bufs[p] && o in s.home && s.home[o].InSlab?)
  }

  ghost predicate SlabsOk(s: Cache) {
    && (forall p :: p in s.bufs ==> SlabOk(s, p))
    && (forall p, o: nat :: p in s.bufs && p in s.buflist ==> BufferOk(s, p, o))
    && (forall o :: o in s.home ==> o / PAGE_SIZE in s.bufs)
    && (forall p :: p in s.slabs || p in s.fullSlabs ==> p in s.bufs)
    && Distinct(s.slabs) && Distinct(s.fullSlabs)
  }

  ghost predicate ColoringOk(s: Cache) {
    && LayoutOk(s.layout) && ColorOk(s.layout, s.color)
    && forall p :: p in s.bufs ==> SlabShape(s.layout, p, s.bufs[p])
  }

  ghost predicate Inv(s: Cache) {
    MagazinesOk(s) && RoundsOk(s) && SlabsOk(s) && ColoringOk(s)
  }

  /** Buffers in use and free buffers of a slab add up to its capacity, and it is on the list of full slabs
      exactly if it has no free buffer. */
  lemma SlabBalance(s: Cache, p: nat)
    requires Inv(s) && (p in s.slabs || p in s.fullSlabs)
    ensures p in s.refcount && p in s.buflist && s.layout.chunk > 0
    ensures s.refcount[p] + |s.buflist[p]| == Capacity(s.layout, s.color)
    ensures p in s.fullSlabs <==> s.buflist[p] == []
    ensures p in s.slabs <==> s.buflist[p] != []
  {
    assert SlabOk(s, p);
    assert ColorOk(s.layout, 0);
    ColoringIsFree(s.layout, 0);
    ColoringIsFree(s.layout, s.color);
  }

  /** Every object is in exactly one place. */
  lemma ExactlyOnePlace(s: Cache, o: nat)
    requires Inv(s) && o in s.home
    ensures var p := o / PAGE_SIZE;
            && p in s.buflist
            && match s.home[o]
               case Live =>
                 o !in s.buflist[p] && forall m :: o !in Contents(s, m)
               case InMagazine(m) =>
                 o !in s.buflist[p] && o in Contents(s, m) &&
                 forall n :: n != m ==> o !in Contents(s, n)
               case InSlab =>
                 o in s.buflist[p] && forall m :: o !in Contents(s, m)
  {
    var p := o / PAGE_SIZE;
    assert SlabOk(s, p) && BufferOk(s, p, o);
    forall m | m !in s.spot ensures o !in Contents(s, m) {
    }
    forall m | m in s.spot ensures o in Contents(s, m) <==> s.home[o] == InMagazine(m) {
      assert o in Contents(s, m) <==> Holds(s, m, o);
    }
  }

  // ---------------------------------------------------------------------------
  // Steps of the magazine layer
  // ---------------------------------------------------------------------------

  predicate HasCpu(s: Cache, c: nat) {
    c < |s.cpus|
  }

  /** `cpu_reload`. */
  function Reload(cpu: Cpu, mag: Option<nat>, rounds: int): Cpu {
    Cpu(mag, rounds, cpu.loaded, cpu.rounds)
  }

  /** Exchange the loaded and the previous magazine. */
  function Exchange(s: Cache, c: nat): Cache
    requires HasCpu(s, c)
  {
    var cpu := s.cpus[c];
    var spot1 := if cpu.loaded.Some? then s.spot[cpu.loaded.value := PreviousIn(c)] else s.spot;
    s.(cpus := s.cpus[c := Reload(cpu, cpu.previous, cpu.prevRounds)],
       spot := if cpu.previous.Some? then spot1[cpu.previous.value := LoadedIn(c)] else spot1)
  }

  /** `free_to_depot` of the previous magazine, if there is one. */
  function Retire(s: Cache, c: nat): Cache
    requires HasCpu(s, c)
  {
    var cpu := s.cpus[c];
    if cpu.previous.None? then s
    else
      var m, full := cpu.previous.value, cpu.prevRounds != 0;
      s.(cpus := s.cpus[c := cpu.(previous := None, prevRounds := -1)],
         full := if full then [m] + s.full else s.full, empty := if full then s.empty else [m] + s.empty,
         spot := s.spot[m := if full then FullList else EmptyList])
  }

  /** `cpu_reload` with the first full magazine of the depot, once the previous one is retired. */
  function InstallFull(s: Cache, c: nat): Cache
    requires HasCpu(s, c) && s.full != []
  {
    var cpu := s.cpus[c];
    var spot1 := if cpu.loaded.Some? then s.spot[cpu.loaded.value := PreviousIn(c)] else s.spot;
    s.(cpus := s.cpus[c := Reload(cpu, Some(s.full[0]), s.size)], full := s.full[1..],
       spot := spot1[s.full[0] := LoadedIn(c)])
  }

  /** The same with the first empty one. */
  function InstallEmpty(s: Cache, c: nat): Cache
    requires HasCpu(s, c) && s.empty != []
  {
    var cpu := s.cpus[c];
    var spot1 := if cpu.loaded.Some? then s.spot[cpu.loaded.value := PreviousIn(c)] else s.spot;
    s.(cpus := s.cpus[c := Reload(cpu, Some(s.empty[0]), 0)], empty := s.empty[1..],
       spot := spot1[s.empty[0] := LoadedIn(c)])
  }

  /** A new magazine with arbitrary contents joins the empty list. */
  function AddMagazine(s: Cache, m: nat, words: seq<nat>): Cache {
    s.(empty := [m] + s.empty, rounds := s.rounds[m := words], spot := s.spot[m := EmptyList])
  }

  predicate CanPop(s: Cache, c: nat) {
    && HasCpu(s, c) && s.cpus[c].rounds > 0 && s.cpus[c].loaded.Some?
    && s.cpus[c].loaded.value in s.rounds && s.cpus[c].rounds <= |s.rounds[s.cpus[c].loaded.value]|
  }

  function Top(s: Cache, c: nat): nat
    requires CanPop(s, c)
  {
    s.rounds[s.cpus[c].loaded.value][s.cpus[c].rounds - 1]
  }

  function PopRound(s: Cache, c: nat): Cache
    requires CanPop(s, c)
  {
    s.(cpus := s.cpus[c := s.cpus[c].(rounds := s.cpus[c].rounds - 1)], home := s.home[Top(s, c) := Live])
  }

  predicate CanPush(s: Cache, c: nat) {
    && HasCpu(s, c) && s.cpus[c].loaded.Some? && s.cpus[c].loaded.value in s.rounds
    && 0 <= s.cpus[c].rounds < |s.rounds[s.cpus[c].loaded.value]|
  }

  function PushRound(s: Cache, c: nat, o: nat): Cache
    requires CanPush(s, c)
  {
    var m, k := s.cpus[c].loaded.value, s.cpus[c].rounds;
    var words: seq<nat> := s.rounds[m][k := o];
    s.(cpus := s.cpus[c := s.cpus[c].(rounds := k + 1)], rounds := s.rounds[m := words],
       home := s.home[o := InMagazine(m)])
  }

  // ---------------------------------------------------------------------------
  // Magazine steps keep the invariant
  // ---------------------------------------------------------------------------

  /** Moving magazines around changes neither their objects nor the slabs. */
  lemma MovesOnly(s: Cache, s': Cache)
    requires Inv(s) && MagazinesOk(s')
    requires s' == s.(cpus := s'.cpus, full := s'.full, empty := s'.empty, spot := s'.spot)
    requires s'.spot.Keys == s.spot.Keys
    requires forall m :: m in s.spot ==> Fill(s', m) == Fill(s, m)
    ensures Inv(s') && LiveSet(s') == LiveSet(s)
  {
    assert forall m :: m in s.spot ==> Contents(s', m) == Contents(s, m);
    forall m, o | m in s'.spot ensures o in Contents(s', m) <==> Holds(s', m, o) {
      assert o in Contents(s, m) <==> Holds(s, m, o);
    }
    forall p | p in s'.bufs ensures SlabOk(s', p) {
      assert SlabOk(s, p);
    }
    forall p, o: nat | p in s'.bufs && p in s'.buflist ensures BufferOk(s', p, o) {
      assert BufferOk(s, p, o);
    }
  }

  lemma ExchangeKeeps(s: Cache, c: nat)
    requires Inv(s) && HasCpu(s, c) && s.cpus[c].previous.Some?
    requires s.cpus[c].rounds == 0 || s.cpus[c].rounds == s.size
    ensures Inv(Exchange(s, c)) && LiveSet(Exchange(s, c)) == LiveSet(s)
  {
    ExchangeShape(s, c);
    MovesOnly(s, Exchange(s, c));
  }

  lemma ExchangeShape(s: Cache, c: nat)
    requires MagazinesOk(s) && HasCpu(s, c) && s.cpus[c].previous.Some?
    requires s.cpus[c].rounds == 0 || s.cpus[c].rounds == s.size
    ensures var s' := Exchange(s, c);
            && MagazinesOk(s') && s'.spot.Keys == s.spot.Keys
            && (forall m :: m in s.spot ==> Fill(s', m) == Fill(s, m))
  {
    var s' := Exchange(s, c);
    assert CpuOk(s, c);
    assert SpotOk(s, s.cpus[c].loaded.value) && SpotOk(s, s.cpus[c].previous.value);
    forall d | 0 <= d < |s'.cpus| ensures CpuOk(s', d) {
      assert CpuOk(s, d);
    }
    forall m | m in s'.spot ensures SpotOk(s', m) && |s'.rounds[m]| == s'.size && Fill(s', m) == Fill(s, m) {
      assert SpotOk(s, m);
    }
  }

  lemma RetireKeeps(s: Cache, c: nat)
    requires Inv(s) && HasCpu(s, c)
    ensures Inv(Retire(s, c)) && LiveSet(Retire(s, c)) == LiveSet(s)
  {
    if s.cpus[c].previous.Some? {
      RetireShape(s, c);
      MovesOnly(s, Retire(s, c));
    }
  }

  /** The magazine is empty or full, and goes to the list of its kind. */
  lemma RetireShape(s: Cache, c: nat)
    requires MagazinesOk(s) && HasCpu(s, c) && s.cpus[c].previous.Some?
    ensures var s' := Retire(s, c);
            && MagazinesOk(s') && s'.spot.Keys == s.spot.Keys
            && (forall m :: m in s.spot ==> Fill(s', m) == Fill(s, m))
  {
    var s' := Retire(s, c);
    assert CpuOk(s, c);
    DistinctCons(s.cpus[c].previous.value, s.full);
    DistinctCons(s.cpus[c].previous.value, s.empty);
    forall d | 0 <= d < |s'.cpus| ensures CpuOk(s', d) {
      assert CpuOk(s, d);
    }
    forall m | m in s'.spot ensures SpotOk(s', m) && |s'.rounds[m]| == s'.size && Fill(s', m) == Fill(s, m) {
      assert SpotOk(s, m);
    }
  }

  lemma InstallFullKeeps(s: Cache, c: nat)
    requires Inv(s) && HasCpu(s, c) && s.full != [] && s.cpus[c].rounds <= 0 && s.cpus[c].previous.None?
    ensures Inv(InstallFull(s, c)) && LiveSet(InstallFull(s, c)) == LiveSet(s)
  {
    InstallFullShape(s, c);
    MovesOnly(s, InstallFull(s, c));
  }

  lemma InstallFullShape(s: Cache, c: nat)
    requires MagazinesOk(s) && HasCpu(s, c) && s.full != [] && s.cpus[c].rounds <= 0 && s.cpus[c].previous.None?
    ensures var s' := InstallFull(s, c);
            && MagazinesOk(s') && s'.spot.Keys == s.spot.Keys
            && (forall m :: m in s.spot ==> Fill(s', m) == Fill(s, m))
  {
    var s' := InstallFull(s, c);
    assert CpuOk(s, c);
    DistinctTail(s.full);
    forall d | 0 <= d < |s'.cpus| ensures CpuOk(s', d) {
      assert CpuOk(s, d);
    }
    forall m | m in s'.spot ensures SpotOk(s', m) && |s'.rounds[m]| == s'.size && Fill(s', m) == Fill(s, m) {
      assert SpotOk(s, m);
    }
  }

  lemma InstallEmptyKeeps(s: Cache, c: nat)
    requires Inv(s) && HasCpu(s, c) && s.empty != [] && s.cpus[c].previous.None?
    requires !(0 <= s.cpus[c].rounds < s.size)
    ensures Inv(InstallEmpty(s, c)) && LiveSet(InstallEmpty(s, c)) == LiveSet(s)
  {
    InstallEmptyShape(s, c);
    MovesOnly(s, InstallEmpty(s, c));
  }

  lemma InstallEmptyShape(s: Cache, c: nat)
    requires MagazinesOk(s) && HasCpu(s, c) && s.empty != [] && s.cpus[c].previous.None?
    requires !(0 <= s.cpus[c].rounds < s.size)
    ensures var s' := InstallEmpty(s, c);
            && MagazinesOk(s') && s'.spot.Keys == s.spot.Keys
            && (forall m :: m in s.spot ==> Fill(s', m) == Fill(s, m))
  {
    var s' := InstallEmpty(s, c);
    assert CpuOk(s, c);
    DistinctTail(s.empty);
    forall d | 0 <= d < |s'.cpus| ensures CpuOk(s', d) {
      assert CpuOk(s, d);
    }
    forall m | m in s'.spot ensures SpotOk(s', m) && |s'.rounds[m]| == s'.size && Fill(s', m) == Fill(s, m) {
      assert SpotOk(s, m);
    }
  }

  lemma AddMagazineKeeps(s: Cache, m: nat, words: seq<nat>)
    requires Inv(s) && m !in s.spot && |words| == s.size
    ensures Inv(AddMagazine(s, m, words)) && LiveSet(AddMagazine(s, m, words)) == LiveSet(s)
  {
    AddMagazineShape(s, m, words);
    AddMagazineRounds(s, m, words);
    SlabsUntouched(s, AddMagazine(s, m, words));
  }

  lemma AddMagazineShape(s: Cache, m: nat, words: seq<nat>)
    requires MagazinesOk(s) && m !in s.spot && |words| == s.size
    ensures MagazinesOk(AddMagazine(s, m, words))
  {
    var s' := AddMagazine(s, m, words);
    DistinctCons(m, s.empty);
    forall d | 0 <= d < |s'.cpus| ensures CpuOk(s', d) {
      assert CpuOk(s, d);
    }
    forall n | n in s'.spot ensures SpotOk(s', n) && |s'.rounds[n]| == s'.size {
      if n != m {
        assert SpotOk(s, n);
      }
    }
  }

  lemma AddMagazineRounds(s: Cache, m: nat, words: seq<nat>)
    requires RoundsOk(s) && m !in s.spot && s.spot.Keys == s.rounds.Keys && |words| == s.size
    ensures RoundsOk(AddMagazine(s, m, words))
  {
    var s' := AddMagazine(s, m, words);
    assert forall n :: n in s'.spot ==> Contents(s', n) == if n == m then [] else Contents(s, n);
    forall n, o | n in s'.spot ensures o in Contents(s', n) <==> Holds(s', n, o) {
      if n != m {
        assert o in Contents(s, n) <==> Holds(s, n, o);
      }
    }
  }

  lemma SlabsUntouched(s: Cache, s': Cache)
    requires SlabsOk(s) && s'.slabs == s.slabs && s'.fullSlabs == s.fullSlabs && s'.buflist == s.buflist
    requires s'.refcount == s.refcount && s'.layout == s.layout && s'.bufs == s.bufs
    requires s'.home.Keys == s.home.Keys
    requires forall o :: o in s.home ==> (s'.home[o].InSlab? <==> s.home[o].InSlab?)
    ensures SlabsOk(s')
  {
    forall p | p in s'.bufs ensures SlabOk(s', p) {
      assert SlabOk(s, p);
    }
    forall p, o: nat | p in s'.bufs && p in s'.buflist ensures BufferOk(s', p, o) {
      assert BufferOk(s, p, o);
    }
  }

  /** One object enters or leaves one magazine. */
  lemma RoundsUpdate(s: Cache, s': Cache, m: nat, o: nat, h: Home)
    requires RoundsOk(s) && s'.spot == s.spot && m in s.spot && s'.home == s.home[o := h]
    requires forall n :: n in s.spot && n != m ==> Contents(s', n) == Contents(s, n)
    requires Distinct(Contents(s', m))
    requires forall x :: x in Contents(s', m) <==> if x == o then h == InMagazine(m) else x in Contents(s, m)
    requires h.InMagazine? ==> h.mag == m
    requires forall n :: n in s.spot && n != m ==> o !in Contents(s, n)
    ensures RoundsOk(s')
  {
    forall n, x | n in s'.spot ensures x in Contents(s', n) <==> Holds(s', n, x) {
      assert x in Contents(s, n) <==> Holds(s, n, x);
    }
  }

  /** A popped round was in the magazine, hence not handed out. */
  lemma PopKeeps(s: Cache, c: nat)
    requires Inv(s) && HasCpu(s, c) && s.cpus[c].rounds > 0
    ensures CanPop(s, c) && Top(s, c) in s.home && !s.home[Top(s, c)].Live?
    ensures Inv(PopRound(s, c)) && LiveSet(PopRound(s, c)) == LiveSet(s) + {Top(s, c)}
  {
    PopShape(s, c);
    PopRounds(s, c);
    LiveAdds(s, PopRound(s, c), Top(s, c));
    SlabsUntouched(s, PopRound(s, c));
  }

  lemma PopShape(s: Cache, c: nat)
    requires MagazinesOk(s) && HasCpu(s, c) && s.cpus[c].rounds > 0
    ensures CanPop(s, c) && MagazinesOk(PopRound(s, c))
  {
    assert CpuOk(s, c);
    var s' := PopRound(s, c);
    forall d | 0 <= d < |s'.cpus| ensures CpuOk(s', d) {
      assert CpuOk(s, d);
    }
    forall n | n in s'.spot ensures SpotOk(s', n) && |s'.rounds[n]| == s'.size {
      assert SpotOk(s, n);
    }
  }

  lemma PopRounds(s: Cache, c: nat)
    requires MagazinesOk(s) && RoundsOk(s) && CanPop(s, c)
    ensures Holds(s, s.cpus[c].loaded.value, Top(s, c)) && RoundsOk(PopRound(s, c))
  {
    var m, k := s.cpus[c].loaded.value, s.cpus[c].rounds;
    var o := Top(s, c);
    var s' := PopRound(s, c);
    assert CpuOk(s, c) && SpotOk(s, m);
    assert Contents(s, m) == Contents(s', m) + [o];
    assert Contents(s, m)[k - 1] == o;
    assert o in Contents(s, m) <==> Holds(s, m, o);
    assert forall i :: 0 <= i < k - 1 ==> Contents(s', m)[i] == Contents(s, m)[i];
    assert o !in Contents(s', m);
    forall n | n in s.spot && n != m ensures Contents(s', n) == Contents(s, n) && o !in Contents(s, n) {
      assert SpotOk(s, n);
      assert o in Contents(s, n) <==> Holds(s, n, o);
    }
    RoundsUpdate(s, s', m, o, Live);
  }

  lemma PushKeeps(s: Cache, c: nat, o: nat)
    requires Inv(s) && HasCpu(s, c) && 0 <= s.cpus[c].rounds < s.size && o in LiveSet(s)
    ensures CanPush(s, c)
    ensures Inv(PushRound(s, c, o)) && LiveSet(PushRound(s, c, o)) == LiveSet(s) - {o}
  {
    PushShape(s, c, o);
    PushRounds(s, c, o);
    LiveDrops(s, PushRound(s, c, o), o, InMagazine(s.cpus[c].loaded.value));
    SlabsUntouched(s, PushRound(s, c, o));
  }

  lemma PushShape(s: Cache, c: nat, o: nat)
    requires MagazinesOk(s) && HasCpu(s, c) && 0 <= s.cpus[c].rounds < s.size
    ensures CanPush(s, c) && MagazinesOk(PushRound(s, c, o))
  {
    assert CpuOk(s, c);
    var s' := PushRound(s, c, o);
    forall d | 0 <= d < |s'.cpus| ensures CpuOk(s', d) {
      assert CpuOk(s, d);
    }
    forall n | n in s'.spot ensures SpotOk(s', n) && |s'.rounds[n]| == s'.size {
      assert SpotOk(s, n);
    }
  }

  lemma PushRounds(s: Cache, c: nat, o: nat)
    requires MagazinesOk(s) && RoundsOk(s) && CanPush(s, c) && o in s.home && s.home[o].Live?
    ensures RoundsOk(PushRound(s, c, o))
  {
    var m := s.cpus[c].loaded.value;
    var s' := PushRound(s, c, o);
    assert CpuOk(s, c) && SpotOk(s, m);
    assert Contents(s', m) == Contents(s, m) + [o];
    assert o in Contents(s, m) <==> Holds(s, m, o);
    forall n | n in s.spot && n != m ensures Contents(s', n) == Contents(s, n) && o !in Contents(s, n) {
      assert SpotOk(s, n);
      assert o in Contents(s, n) <==> Holds(s, n, o);
    }
    RoundsUpdate(s, s', m, o, InMagazine(m));
  }
}
