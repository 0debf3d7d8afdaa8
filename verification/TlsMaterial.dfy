/**
  * Certificate renewal against TLS handshakes, in every interleaving. Files are known by how often they
  * were replaced; the parsed identities are cached behind a mutex, tagged with the snapshot and material
  * generations read before the mutex was taken.
  */
module TlsMaterial {
  import opened Common
  import opened Config

  /** How often each file has been replaced; an absent file is not in the map. */
  type Disk = map<string, nat>

  function Version(disk: Disk, source: PemSource): nat {
    if source.Path? && source.path in disk then disk[source.path] else 0
  }

  predicate Readable(disk: Disk, source: PemSource) { source.Path? ==> source.path in disk }

  /** Parsed material: the versions of the two files it was read from. */
  datatype Loaded = Loaded(cert: nat, key: nat)

  /** At least as recent as the disk was then. */
  predicate NotOlder(loaded: Loaded, identity: TlsIdentity, disk: Disk) {
    loaded.cert >= Version(disk, identity.cert) && loaded.key >= Version(disk, identity.key)
  }

  predicate Grew(before: Disk, after: Disk) {
    forall p :: p in before ==> p in after && before[p] <= after[p]
  }

  lemma GrewVersion(before: Disk, after: Disk, source: PemSource)
    requires Grew(before, after)
    ensures Version(before, source) <= Version(after, source)
  {
  }

  datatype Cache = Cache(snapshot: nat, material: nat, identities: map<TlsIdentity, Loaded>)

  /** Where a handshake is. It carries the snapshot generation, the material generation and the identity it read. */
  datatype Handshake =
    | Chosen(snapshot: nat, identity: TlsIdentity)
    | Tagged(snapshot: nat, material: nat, identity: TlsIdentity)
    | Loading(snapshot: nat, material: nat, identity: TlsIdentity)
    | HalfLoaded(snapshot: nat, material: nat, identity: TlsIdentity, cert: nat)

  /** `marks[t]` is the disk at the moment the material generation became `t`; the generation starts at 1. */
  datatype Shared = Shared(disk: Disk, snapshot: nat, material: nat, marks: map<nat, Disk>, cache: Cache,
                           lock: Option<nat>, handshakes: map<nat, Handshake>)

  datatype Step =
    | Replace(path: string)
    | Invalidate
    | ApplySnapshot
    | ChooseIdentity(tid: nat, identity: TlsIdentity)
    | ReadGeneration(tid: nat)
    | LookUp(tid: nat)
    | ReadCert(tid: nat)
    | ReadKey(tid: nat)

  predicate Enabled(s: Shared, step: Step) {
    match step
    case Replace(_) => true
    case Invalidate => true
    case ApplySnapshot => true
    case ChooseIdentity(tid, _) => tid !in s.handshakes
    case ReadGeneration(tid) => tid in s.handshakes && s.handshakes[tid].Chosen?
    case LookUp(tid) => tid in s.handshakes && s.handshakes[tid].Tagged? && s.lock.None?
    case ReadCert(tid) => tid in s.handshakes && s.handshakes[tid].Loading? && s.lock == Some(tid)
    case ReadKey(tid) => tid in s.handshakes && s.handshakes[tid].HalfLoaded? && s.lock == Some(tid)
  }

  /** Retagged and emptied unless both generations are the ones already there. */
  function Retagged(c: Cache, snapshot: nat, material: nat): Cache {
    if c.snapshot != snapshot || c.material != material then Cache(snapshot, material, map[]) else c
  }

  function Leave(s: Shared, tid: nat): Shared { s.(handshakes := s.handshakes - {tid}, lock := None) }

  function After(s: Shared, step: Step): Shared
    requires Enabled(s, step)
  {
    match step
    case Replace(path) => s.(disk := s.disk[path := Version(s.disk, Path(path)) + 1])
    case Invalidate => s.(material := s.material + 1, marks := s.marks[s.material + 1 := s.disk])
    case ApplySnapshot => s.(snapshot := s.snapshot + 1)
    case ChooseIdentity(tid, identity) => s.(handshakes := s.handshakes[tid := Chosen(s.snapshot, identity)])
    case ReadGeneration(tid) =>
      var h := s.handshakes[tid];
      s.(handshakes := s.handshakes[tid := Tagged(h.snapshot, s.material, h.identity)])
    case LookUp(tid) =>
      var h := s.handshakes[tid];
      var cache := Retagged(s.cache, h.snapshot, h.material);
      if h.identity in cache.identities then Leave(s.(cache := cache), tid)
      else s.(cache := cache, lock := Some(tid),
           handshakes := s.handshakes[tid := Loading(h.snapshot, h.material, h.identity)])
    case ReadCert(tid) =>
      var h := s.handshakes[tid];
      if !Readable(s.disk, h.identity.cert) then Leave(s, tid)
      else
        var half := HalfLoaded(h.snapshot, h.material, h.identity, Version(s.disk, h.identity.cert));
        s.(handshakes := s.handshakes[tid := half])
    case ReadKey(tid) =>
      var h := s.handshakes[tid];
      if !Readable(s.disk, h.identity.key) then Leave(s, tid)
      else
        var loaded := Loaded(h.cert, Version(s.disk, h.identity.key));
        Leave(s.(cache := s.cache.(identities := s.cache.identities[h.identity := loaded])), tid)
  }

  /** The material a step hands to its handshake, if it ends it successfully. */
  function Served(s: Shared, step: Step): Option<Loaded>
    requires Enabled(s, step)
  {
    match step
    case LookUp(tid) =>
      var h := s.handshakes[tid];
      var cache := Retagged(s.cache, h.snapshot, h.material);
      if h.identity in cache.identities then Some(cache.identities[h.identity]) else None
    case ReadKey(tid) =>
      var h := s.handshakes[tid];
      if Readable(s.disk, h.identity.key) then Some(Loaded(h.cert, Version(s.disk, h.identity.key))) else None
    case _ => None
  }

  function Initial(disk: Disk): Shared { Shared(disk, 1, 1, map[1 := disk], Cache(0, 0, map[]), None, map[]) }

  predicate StepAt(states: seq<Shared>, steps: seq<Step>, i: nat)
    requires i < |steps| < |states|
  {
    Enabled(states[i], steps[i]) && states[i + 1] == After(states[i], steps[i])
  }

  ghost predicate Run(disk: Disk, states: seq<Shared>, steps: seq<Step>) {
    && |states| == |steps| + 1 && states[0] == Initial(disk)
    && forall i :: 0 <= i < |steps| ==> StepAt(states, steps, i)
  }

  lemma RunStep(disk: Disk, states: seq<Shared>, steps: seq<Step>, i: nat)
    requires Run(disk, states, steps) && i < |steps|
    ensures Enabled(states[i], steps[i]) && states[i + 1] == After(states[i], steps[i])
  {
    assert StepAt(states, steps, i);
  }

  // ---- the invariant ----

  ghost predicate Marked(s: Shared) {
    && 1 <= s.material && (forall t :: t in s.marks <==> 1 <= t <= s.material)
    && (forall t :: t in s.marks ==> Grew(s.marks[t], s.disk))
    && (forall t, u :: t in s.marks && u in s.marks && t <= u ==> Grew(s.marks[t], s.marks[u]))
  }

  /** Everything cached is at least as recent as the disk was when its tag's generation began. */
  predicate CacheOk(c: Cache, marks: map<nat, Disk>) {
    forall identity :: identity in c.identities ==>
                         c.material in marks && NotOlder(c.identities[identity], identity, marks[c.material])
  }

  predicate HandshakeOk(s: Shared, tid: nat, h: Handshake) {
    && (!h.Chosen? ==> h.material in s.marks)
    && (h.Loading? || h.HalfLoaded? ==>
          s.lock == Some(tid) && s.cache.snapshot == h.snapshot && s.cache.material == h.material)
    && (h.HalfLoaded? ==> h.material in s.marks && h.cert >= Version(s.marks[h.material], h.identity.cert))
  }

  ghost predicate Inv(s: Shared) {
    && Marked(s) && CacheOk(s.cache, s.marks)
    && (forall tid :: tid in s.handshakes ==> HandshakeOk(s, tid, s.handshakes[tid]))
  }

  lemma GrewFurther(a: Disk, b: Disk, c: Disk)
    requires Grew(a, b) && Grew(b, c)
    ensures Grew(a, c)
  {
  }

  /** Files only get newer, generations only grow, and marks once made stay. */
  predicate Advances(s: Shared, u: Shared) {
    && s.material <= u.material && Grew(s.disk, u.disk)
    && forall t :: t in s.marks ==> t in u.marks && u.marks[t] == s.marks[t]
  }

  lemma AdvancesFurther(s: Shared, u: Shared, v: Shared)
    requires Advances(s, u) && Advances(u, v)
    ensures Advances(s, v)
  {
    GrewFurther(s.disk, u.disk, v.disk);
  }

  lemma ReplaceKeepsMarks(s: Shared, u: Shared, path: string)
    requires Marked(s) && u.material == s.material && u.marks == s.marks
    requires u.disk == s.disk[path := Version(s.disk, Path(path)) + 1]
    ensures Marked(u) && Advances(s, u)
  {
    forall t | t in s.marks ensures Grew(s.marks[t], u.disk) {
      GrewFurther(s.marks[t], s.disk, u.disk);
    }
  }

  lemma InvalidateKeepsMarks(s: Shared, u: Shared)
    requires Marked(s) && u.disk == s.disk && u.material == s.material + 1
    requires u.marks == s.marks[s.material + 1 := s.disk]
    ensures Marked(u) && Advances(s, u)
  {
    forall t, v | t in u.marks && v in u.marks && t <= v ensures Grew(u.marks[t], u.marks[v]) {
      if v <= s.material { assert Grew(s.marks[t], s.marks[v]); }
    }
  }

  lemma QuietKeepsMarks(s: Shared, u: Shared)
    requires Marked(s) && u.disk == s.disk && u.marks == s.marks && u.material == s.material
    ensures Marked(u) && Advances(s, u)
  {
  }

  lemma MarksStay(s: Shared, step: Step)
    requires Marked(s) && Enabled(s, step)
    ensures Marked(After(s, step)) && Advances(s, After(s, step))
  {
    var u := After(s, step);
    match step
    case Replace(path) => ReplaceKeepsMarks(s, u, path);
    case Invalidate => InvalidateKeepsMarks(s, u);
    case _ => QuietKeepsMarks(s, u);
  }

  lemma ServedIsNotOlder(s: Shared, step: Step)
    requires Inv(s) && Enabled(s, step) && Served(s, step).Some?
    ensures (step.LookUp? || step.ReadKey?) && step.tid in s.handshakes && !s.handshakes[step.tid].Chosen?
    ensures var h := s.handshakes[step.tid];
            h.material in s.marks && NotOlder(Served(s, step).value, h.identity, s.marks[h.material])
  {
    var h := s.handshakes[step.tid];
    assert HandshakeOk(s, step.tid, h);
    if step.ReadKey? {
      GrewVersion(s.marks[h.material], s.disk, h.identity.key);
    }
  }

  lemma CacheStaysOk(s: Shared, step: Step)
    requires Inv(s) && Enabled(s, step)
    ensures CacheOk(After(s, step).cache, After(s, step).marks)
  {
    MarksStay(s, step);
    if step.ReadKey? {
      var h := s.handshakes[step.tid];
      assert HandshakeOk(s, step.tid, h);
      GrewVersion(s.marks[h.material], s.disk, h.identity.key);
    }
  }

  predicate Concerns(step: Step, tid: nat) {
    match step
    case Replace(_) => false
    case Invalidate => false
    case ApplySnapshot => false
    case ChooseIdentity(t, _) => t == tid
    case ReadGeneration(t) => t == tid
    case LookUp(t) => t == tid
    case ReadCert(t) => t == tid
    case ReadKey(t) => t == tid
  }

  /** The mutex keeps everyone else away from the cache a handshake is loading into. */
  lemma BystanderStaysOk(s: Shared, step: Step, tid: nat)
    requires Inv(s) && Enabled(s, step) && tid in s.handshakes && !Concerns(step, tid)
    ensures tid in After(s, step).handshakes && After(s, step).handshakes[tid] == s.handshakes[tid]
    ensures HandshakeOk(After(s, step), tid, s.handshakes[tid])
  {
    MarksStay(s, step);
    var h := s.handshakes[tid];
    assert HandshakeOk(s, tid, h);
    if h.Loading? || h.HalfLoaded? {
      assert After(s, step).lock == s.lock && After(s, step).cache == s.cache;
    }
  }

  lemma ActorStaysOk(s: Shared, step: Step, tid: nat)
    requires Inv(s) && Enabled(s, step) && Concerns(step, tid) && tid in After(s, step).handshakes
    ensures HandshakeOk(After(s, step), tid, After(s, step).handshakes[tid])
  {
    if tid in s.handshakes { assert HandshakeOk(s, tid, s.handshakes[tid]); }
    if step.ReadCert? {
      var h := s.handshakes[tid];
      GrewVersion(s.marks[h.material], s.disk, h.identity.cert);
    }
  }

  lemma StepKeepsInv(s: Shared, step: Step)
    requires Inv(s) && Enabled(s, step)
    ensures Inv(After(s, step))
  {
    var u := After(s, step);
    MarksStay(s, step);
    CacheStaysOk(s, step);
    forall tid | tid in u.handshakes ensures HandshakeOk(u, tid, u.handshakes[tid]) {
      if Concerns(step, tid) { ActorStaysOk(s, step, tid); } else { BystanderStaysOk(s, step, tid); }
    }
  }

  lemma {:induction false} InvOverEveryRun(disk: Disk, states: seq<Shared>, steps: seq<Step>, n: nat)
    requires Run(disk, states, steps) && n < |states|
    ensures Inv(states[n])
  {
    if n > 0 {
      InvOverEveryRun(disk, states, steps, n - 1);
      RunStep(disk, states, steps, n - 1);
      StepKeepsInv(states[n - 1], steps[n - 1]);
    }
  }

  // ---- what a handshake gets ----

  lemma StepKeepsGeneration(s: Shared, step: Step, tid: nat)
    requires Enabled(s, step) && tid in s.handshakes && !s.handshakes[tid].Chosen? && tid in After(s, step).handshakes
    ensures var h := After(s, step).handshakes[tid]; !h.Chosen? && h.material == s.handshakes[tid].material
  {
  }

  /** Once read, the material generation of a handshake stays what it was. */
  lemma {:induction false} GenerationIsKept(disk: Disk, states: seq<Shared>, steps: seq<Step>, b: nat, n: nat, tid: nat)
    requires Run(disk, states, steps) && b < n < |states| && steps[b] == ReadGeneration(tid)
    requires forall j :: b < j <= n ==> tid in states[j].handshakes
    ensures var h := states[n].handshakes[tid]; !h.Chosen? && h.material == states[b].material
  {
    RunStep(disk, states, steps, n - 1);
    if n > b + 1 {
      GenerationIsKept(disk, states, steps, b, n - 1, tid);
      StepKeepsGeneration(states[n - 1], steps[n - 1], tid);
    }
  }

  /**
    * In every interleaving of renewals, snapshots and handshakes, a handshake that read material
    * generation `t` gets nothing older than what was on disk when the generation became `t`.
    */
  lemma HandshakeNeverGetsOlder(disk: Disk, states: seq<Shared>, steps: seq<Step>, b: nat, n: nat, tid: nat)
    requires Run(disk, states, steps) && b < n < |steps| && steps[b] == ReadGeneration(tid)
    requires forall j :: b < j <= n ==> tid in states[j].handshakes
    requires (steps[n] == LookUp(tid) || steps[n] == ReadKey(tid)) && StepAt(states, steps, n)
    requires Served(states[n], steps[n]).Some?
    ensures var t := states[b].material;
            t in states[n].marks && NotOlder(Served(states[n], steps[n]).value, states[n].handshakes[tid].identity,
                                             states[n].marks[t])
  {
    InvOverEveryRun(disk, states, steps, n);
    GenerationIsKept(disk, states, steps, b, n, tid);
    ServedIsNotOlder(states[n], steps[n]);
  }

  lemma {:induction false} MarksPersist(disk: Disk, states: seq<Shared>, steps: seq<Step>, m: nat, n: nat)
    requires Run(disk, states, steps) && m <= n < |states|
    ensures Advances(states[m], states[n])
  {
    if m < n {
      MarksPersist(disk, states, steps, m, n - 1);
      InvOverEveryRun(disk, states, steps, n - 1);
      RunStep(disk, states, steps, n - 1);
      MarksStay(states[n - 1], steps[n - 1]);
      AdvancesFurther(states[m], states[n - 1], states[n]);
    }
  }

  /**
    * Write first, invalidate after: material on disk at step `a` reaches every handshake that reads its
    * generation after an invalidation at step `i`, `a <= i`.
    */
  lemma RenewalReachesLaterHandshakes(disk: Disk, states: seq<Shared>, steps: seq<Step>, a: nat, i: nat, b: nat, n: nat,
                                      tid: nat)
    requires Run(disk, states, steps) && a <= i < b < n < |steps| && steps[i] == Invalidate
    requires steps[b] == ReadGeneration(tid)
    requires forall j :: b < j <= n ==> tid in states[j].handshakes
    requires (steps[n] == LookUp(tid) || steps[n] == ReadKey(tid)) && StepAt(states, steps, n)
    requires Served(states[n], steps[n]).Some?
    ensures NotOlder(Served(states[n], steps[n]).value, states[n].handshakes[tid].identity, states[a].disk)
  {
    HandshakeNeverGetsOlder(disk, states, steps, b, n, tid);
    MarksPersist(disk, states, steps, a, i);
    MarkReached(disk, states, steps, i, b, n);
    var u, identity := states[b].material, states[n].handshakes[tid].identity;
    GrewFurther(states[a].disk, states[i].disk, states[n].marks[u]);
    GrewVersion(states[a].disk, states[n].marks[u], identity.cert);
    GrewVersion(states[a].disk, states[n].marks[u], identity.key);
  }

  /** Every generation from the one an invalidation began is marked with a disk no older than the invalidated one. */
  lemma MarkReached(disk: Disk, states: seq<Shared>, steps: seq<Step>, i: nat, b: nat, n: nat)
    requires Run(disk, states, steps) && i < b < n < |states| && steps[i] == Invalidate
    ensures states[b].material in states[n].marks && Grew(states[i].disk, states[n].marks[states[b].material])
  {
    RunStep(disk, states, steps, i);
    MarksPersist(disk, states, steps, i + 1, b);
    MarksPersist(disk, states, steps, b, n);
    InvOverEveryRun(disk, states, steps, b);
    InvOverEveryRun(disk, states, steps, n);
    MarksInOrder(states[n], states[i + 1].material, states[b].material);
  }

  lemma MarksInOrder(s: Shared, t: nat, u: nat)
    requires Marked(s) && 1 <= t <= u && u in s.marks
    ensures t in s.marks && Grew(s.marks[t], s.marks[u])
  {
  }

  // ---- loading, in one go and in steps ----

  /** What a look-up leaves and returns, if the files are read from these disks. */
  function Load(c: Cache, snapshot: nat, material: nat, identity: TlsIdentity, atCert: Disk, atKey: Disk): (Cache,
    Option<Loaded>) {
    var tagged := Retagged(c, snapshot, material);
    if identity in tagged.identities then (tagged, Some(tagged.identities[identity]))
    else if Readable(atCert, identity.cert) && Readable(atKey, identity.key) then
      var loaded := Loaded(Version(atCert, identity.cert), Version(atKey, identity.key));
      (tagged.(identities := tagged.identities[identity := loaded]), Some(loaded))
    else (tagged, None)
  }

  /** Loading keeps the cache as recent as its tag, and returns nothing older. */
  lemma LoadKeepsCacheOk(c: Cache, marks: map<nat, Disk>, snapshot: nat, material: nat, identity: TlsIdentity,
                         atCert: Disk, atKey: Disk)
    requires CacheOk(c, marks) && material in marks && Grew(marks[material], atCert) && Grew(marks[material], atKey)
    ensures var l := Load(c, snapshot, material, identity, atCert, atKey);
            CacheOk(l.0, marks) && l.0.material == material
            && (l.1.Some? ==> NotOlder(l.1.value, identity, marks[material]))
  {
    GrewVersion(marks[material], atCert, identity.cert);
    GrewVersion(marks[material], atKey, identity.key);
  }

  /** Between the steps of the handshake that holds the mutex, only the others move. */
  predicate HeldFor(s: Shared, u: Shared, tid: nat) {
    u.lock == s.lock && u.cache == s.cache && tid in s.handshakes && tid in u.handshakes
    && u.handshakes[tid] == s.handshakes[tid]
  }

  lemma OthersHold(s: Shared, step: Step, tid: nat)
    requires Inv(s) && Enabled(s, step) && s.lock == Some(tid) && tid in s.handshakes && !Concerns(step, tid)
    ensures HeldFor(s, After(s, step), tid)
  {
    BystanderStaysOk(s, step, tid);
  }

  /** Looked up in `s`, the certificate read in `t` and the key in `u`, whatever the others did in between: one load. */
  lemma LoadIsThreeSteps(s: Shared, t: Shared, u: Shared, tid: nat)
    requires Enabled(s, LookUp(tid)) && Served(s, LookUp(tid)).None? && HeldFor(After(s, LookUp(tid)), t, tid)
    requires Enabled(t, ReadCert(tid)) && Readable(t.disk, s.handshakes[tid].identity.cert)
    requires HeldFor(After(t, ReadCert(tid)), u, tid)
    ensures var h := s.handshakes[tid];
            && Enabled(u, ReadKey(tid))
            && Load(s.cache, h.snapshot, h.material, h.identity, t.disk, u.disk)
               == (After(u, ReadKey(tid)).cache, Served(u, ReadKey(tid)))
  {
  }

  /** As long as the others move, the mutex, the cache and the handshake stay. */
  lemma {:induction false} HeldMeanwhile(disk: Disk, states: seq<Shared>, steps: seq<Step>, m: nat, n: nat, tid: nat)
    requires Run(disk, states, steps) && m <= n < |states| && states[m].lock == Some(tid) && tid in states[m].handshakes
    requires forall j :: m <= j < n ==> !Concerns(steps[j], tid)
    ensures HeldFor(states[m], states[n], tid)
  {
    if m < n {
      HeldMeanwhile(disk, states, steps, m, n - 1, tid);
      InvOverEveryRun(disk, states, steps, n - 1);
      RunStep(disk, states, steps, n - 1);
      OthersHold(states[n - 1], steps[n - 1], tid);
    }
  }

  lemma {:induction false} GoneMeanwhile(disk: Disk, states: seq<Shared>, steps: seq<Step>, m: nat, n: nat, tid: nat)
    requires Run(disk, states, steps) && m <= n < |states| && tid !in states[m].handshakes
    requires forall j :: m <= j < n ==> !Concerns(steps[j], tid)
    ensures tid !in states[n].handshakes
  {
    if m < n {
      GoneMeanwhile(disk, states, steps, m, n - 1, tid);
      RunStep(disk, states, steps, n - 1);
    }
  }

  /** A handshake that goes on to read the certificate missed the cache, and nobody else touched the cache since. */
  lemma LookedUp(disk: Disk, states: seq<Shared>, steps: seq<Step>, a: nat, b: nat, tid: nat)
    requires Run(disk, states, steps) && a < b < |steps| && steps[a] == LookUp(tid) && steps[b] == ReadCert(tid)
    requires forall j :: a < j < b ==> !Concerns(steps[j], tid)
    ensures Enabled(states[a], LookUp(tid)) && Served(states[a], LookUp(tid)).None?
    ensures Enabled(states[b], ReadCert(tid)) && HeldFor(After(states[a], LookUp(tid)), states[b], tid)
  {
    RunStep(disk, states, steps, a);
    RunStep(disk, states, steps, b);
    if Served(states[a], LookUp(tid)).Some? { GoneMeanwhile(disk, states, steps, a + 1, b, tid); }
    HeldMeanwhile(disk, states, steps, a + 1, b, tid);
  }

  /**
    * In every run, the steps of one handshake from its look-up to its reading of the key are one load, with
    * whatever the others did in between: the cache and the answer are those of loading in one go.
    */
  lemma LoadOverRuns(disk: Disk, states: seq<Shared>, steps: seq<Step>, a: nat, b: nat, c: nat, tid: nat)
    requires Run(disk, states, steps) && a < b < c < |steps|
    requires steps[a] == LookUp(tid) && steps[b] == ReadCert(tid) && steps[c] == ReadKey(tid)
    requires forall j :: a < j < c && j != b ==> !Concerns(steps[j], tid)
    ensures Enabled(states[a], LookUp(tid)) && Enabled(states[c], ReadKey(tid))
    ensures var h := states[a].handshakes[tid];
            Load(states[a].cache, h.snapshot, h.material, h.identity, states[b].disk, states[c].disk)
            == (states[c + 1].cache, Served(states[c], ReadKey(tid)))
  {
    LookedUp(disk, states, steps, a, b, tid);
    RunStep(disk, states, steps, b);
    RunStep(disk, states, steps, c);
    if !Readable(states[b].disk, states[a].handshakes[tid].identity.cert) {
      GoneMeanwhile(disk, states, steps, b + 1, c, tid);
    }
    HeldMeanwhile(disk, states, steps, b + 1, c, tid);
    LoadIsThreeSteps(states[a], states[b], states[c], tid);
  }

  /** And a certificate that cannot be read ends it, as it ends a load in one go, whatever the key. */
  lemma FailedLoadOverRuns(disk: Disk, states: seq<Shared>, steps: seq<Step>, a: nat, b: nat, tid: nat, atKey: Disk)
    requires Run(disk, states, steps) && a < b < |steps| && steps[a] == LookUp(tid) && steps[b] == ReadCert(tid)
    requires forall j :: a < j < b ==> !Concerns(steps[j], tid)
    requires tid !in states[b + 1].handshakes
    ensures Enabled(states[a], LookUp(tid))
    ensures var h := states[a].handshakes[tid];
            && Load(states[a].cache, h.snapshot, h.material, h.identity, states[b].disk, atKey)
               == (states[b + 1].cache, None)
            && states[b + 1].lock.None?
  {
    LookedUp(disk, states, steps, a, b, tid);
    RunStep(disk, states, steps, b);
  }

  lemma LoadIsOneStep(s: Shared, tid: nat, atCert: Disk, atKey: Disk)
    requires Enabled(s, LookUp(tid)) && Served(s, LookUp(tid)).Some?
    ensures var h := s.handshakes[tid];
            Load(s.cache, h.snapshot, h.material, h.identity, atCert, atKey)
            == (After(s, LookUp(tid)).cache, Served(s, LookUp(tid)))
  {
  }

  // ---- renewing, step by step ----

  /** Files replaced one after another, then the generation raised if asked. */
  function RenewalSteps(paths: seq<string>, raised: bool): seq<Step> {
    seq(|paths|, i requires 0 <= i < |paths| => Replace(paths[i])) + (if raised then [Invalidate] else [])
  }

  predicate Renews(step: Step) { step.Replace? || step.Invalidate? }

  /** Such steps need no handshake and can always be taken. */
  function AfterAll(s: Shared, steps: seq<Step>): Shared
    requires forall i :: 0 <= i < |steps| ==> Renews(steps[i])
  {
    if steps == [] then s
    else
      assert Renews(steps[|steps| - 1]);
      After(AfterAll(s, steps[..|steps| - 1]), steps[|steps| - 1])
  }

  lemma AfterOneMore(s: Shared, steps: seq<Step>, step: Step)
    requires (forall i :: 0 <= i < |steps| ==> Renews(steps[i])) && Renews(step)
    ensures AfterAll(s, steps + [step]) == After(AfterAll(s, steps), step)
  {
    assert (steps + [step])[..|steps|] == steps;
  }

  lemma ReplacedOneMore(s: Shared, paths: seq<string>, path: string)
    ensures AfterAll(s, RenewalSteps(paths + [path], false))
         == After(AfterAll(s, RenewalSteps(paths, false)), Replace(path))
  {
    assert RenewalSteps(paths + [path], false) == RenewalSteps(paths, false) + [Replace(path)];
    AfterOneMore(s, RenewalSteps(paths, false), Replace(path));
  }

  lemma RaisedAtLast(s: Shared, paths: seq<string>)
    ensures AfterAll(s, RenewalSteps(paths, true)) == After(AfterAll(s, RenewalSteps(paths, false)), Invalidate)
  {
    assert RenewalSteps(paths, true) == RenewalSteps(paths, false) + [Invalidate];
    AfterOneMore(s, RenewalSteps(paths, false), Invalidate);
  }

  // ---- the two sides, changed in place ----

  /** `SniCertResolver`: one listener's cache, used under its mutex. */
  class Resolver {
    var cache: Cache

    constructor ()
      ensures cache == Cache(0, 0, map[])
    {
      cache := Cache(0, 0, map[]);
    }

    /** `atCert` and `atKey` are the disk when the two files are read, if they are. */
    method LoadCached(snapshot: nat, material: nat, identity: TlsIdentity, atCert: Disk, atKey: Disk)
      returns (r: Option<Loaded>)
      modifies this
      ensures (cache, r) == Load(old(cache), snapshot, material, identity, atCert, atKey)
    {
      if cache.snapshot != snapshot || cache.material != material {
        cache := Cache(snapshot, material, map[]);
      }
      if identity in cache.identities {
        return Some(cache.identities[identity]);
      }
      if !Readable(atCert, identity.cert) {
        return None;
      }
      var cert := Version(atCert, identity.cert);
      if !Readable(atKey, identity.key) {
        return None;
      }
      var loaded := Loaded(cert, Version(atKey, identity.key));
      cache := cache.(identities := cache.identities[identity := loaded]);
      return Some(loaded);
    }
  }

  /** What became of one managed certificate: nothing to do, issued, or failed after perhaps creating its key. */
  datatype Renewal = Fresh | Issued(newKey: bool) | Failed(newKey: bool)

  /** A certificate file below the cache directory is ours to renew. */
  predicate Managed(identity: TlsIdentity, cacheDir: string) {
    var dir := TrimSlashes(cacheDir);
    identity.cert.Path? && (cacheDir == "" || identity.cert.path == dir || dir + "/" <= identity.cert.path)
  }

  /** The renewal service: the files it replaces and the generation it then raises. `shared` is the machine it moves. */
  class Renewer {
    var disk: Disk
    var material: nat
    ghost var shared: Shared

    ghost predicate Valid()
      reads this
    {
      disk == shared.disk && material == shared.material
    }

    constructor (shared: Shared)
      ensures Valid() && this.shared == shared
    {
      disk := shared.disk;
      material := shared.material;
      this.shared := shared;
    }

    method ReplaceFile(source: PemSource, ghost done: seq<string>) returns (ghost paths: seq<string>)
      requires Valid()
      modifies this`disk, this`shared
      ensures Valid() && paths == if source.Path? then done + [source.path] else done
      ensures forall s :: old(shared) == AfterAll(s, RenewalSteps(done, false)) ==>
                            shared == AfterAll(s, RenewalSteps(paths, false))
    {
      paths := done;
      if source.Path? {
        disk := disk[source.path := Version(disk, source) + 1];
        shared := After(shared, Replace(source.path));
        paths := done + [source.path];
        forall s | old(shared) == AfterAll(s, RenewalSteps(done, false))
          ensures shared == AfterAll(s, RenewalSteps(paths, false)) {
          ReplacedOneMore(s, done, source.path);
        }
      }
    }

    /** A key perhaps, then the certificate; `paths` grows by the files replaced. */
    method EnsureCertificate(identity: TlsIdentity, outcome: Renewal, ghost done: seq<string>)
      returns (changed: bool, ghost paths: seq<string>)
      requires Valid() && identity.cert.Path?
      modifies this`disk, this`shared
      ensures Valid() && changed == outcome.Issued? && done <= paths
      ensures (changed ==> identity.cert.path in paths[|done|..])
      ensures forall s :: old(shared) == AfterAll(s, RenewalSteps(done, false)) ==>
                            shared == AfterAll(s, RenewalSteps(paths, false))
    {
      paths := done;
      if outcome.Fresh? {
        return false, paths;
      }
      if outcome.newKey {
        paths := ReplaceFile(identity.key, paths);
      }
      if outcome.Failed? {
        return false, paths;
      }
      paths := ReplaceFile(identity.cert, paths);
      assert paths[|done|..][|paths| - |done| - 1] == identity.cert.path;
      return true, paths;
    }

    /**
      * One round of renewal moves the machine by replacing files and then, exactly when a managed certificate
      * was among them, raising the generation once: every file is in place by then.
      */
    method ReconcileOnce(identities: seq<TlsIdentity>, cacheDir: string, outcomes: seq<Renewal>)
      returns (updated: bool, ghost paths: seq<string>)
      requires Valid() && |identities| == |outcomes|
      modifies this
      ensures Valid() && shared == AfterAll(old(shared), RenewalSteps(paths, updated))
      ensures updated <==> exists i :: 0 <= i < |identities| && Managed(identities[i], cacheDir) && outcomes[i].Issued?
      ensures forall i :: 0 <= i < |identities| && Managed(identities[i], cacheDir) && outcomes[i].Issued? ==>
                            identities[i].cert.path in paths
    {
      updated, paths := false, [];
      for i := 0 to |identities|
        invariant Valid() && shared == AfterAll(old(shared), RenewalSteps(paths, false))
        invariant updated <==> exists j :: 0 <= j < i && Managed(identities[j], cacheDir) && outcomes[j].Issued?
        invariant forall j :: 0 <= j < i && Managed(identities[j], cacheDir) && outcomes[j].Issued? ==>
                                identities[j].cert.path in paths
      {
        if !Managed(identities[i], cacheDir) {
          continue;
        }
        ghost var done := paths;
        var changed;
        changed, paths := EnsureCertificate(identities[i], outcomes[i], done);
        updated := updated || changed;
      }
      if updated {
        material := material + 1;
        shared := After(shared, Invalidate);
        RaisedAtLast(old(shared), paths);
      }
    }
  }
}
