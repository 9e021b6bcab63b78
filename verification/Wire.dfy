/** The push protocol (src/wire.rs): any number of clients race on one put-if-absent sequence of
    manifests.  A client discovers, plans and assembles against the latest manifest it saw,
    uploads its segments, and puts the next manifest unless another client has. */
module Wire {
  import opened Wrappers
  import opened Spans
  import opened Patch
  import opened Logs
  import opened Segments
  import opened Serve
  import opened Remote
  import opened Delta
  import opened Swap
  import opened SwapGood
  import opened Assembly

  const PUSH_ATTEMPTS: nat := 16

  /** Where a client stands: at rest, or in its `tries`-th attempt of one push. */
  datatype Phase = Idle | Retrying(tries: nat) | Uploading(at: Attempt, tries: nat, sent: set<Segment>)

  datatype Client = Client(local: Local, pool: set<Text>, cached: Option<ServeManifest>, synced: map<string, Id>,
                           phase: Phase)

  /** The store's manifests and segments, and its clients. */
  datatype World = World(store: Store, objects: set<Segment>, clients: seq<Client>)

  datatype Action =
    | Work(local: Local, pool: set<Text>)
    | Clone
    | Settle(at: Attempt)
    | Begin(at: Attempt)
    | Upload(segment: Segment)
    | Put
    | Stop

  /** A put-if-absent of the attempt's manifest finds its name free. */
  predicate Wins(store: Store, at: Attempt) {
    Get(store, at.Result().number).None?
  }

  function TriesOf(phase: Phase): nat {
    match phase
    case Idle => 0
    case Retrying(tries) => tries
    case Uploading(_, tries, _) => tries
  }

  /** The attempt plans, against the latest manifest, what the client now holds. */
  ghost predicate Starts(w: World, client: Client, at: Attempt, limit: nat) {
    && !client.phase.Uploading? && TriesOf(client.phase) < PUSH_ATTEMPTS
    && at.published == Latest(w.store) && at.local == client.local && at.pool == client.pool
    && at.synced == client.synced && at.limit == limit && at.Planned()
  }

  /** What must hold for client `c` to take the step. */
  ghost predicate Enabled(w: World, c: nat, a: Action, limit: nat)
    requires c < |w.clients|
  {
    var client := w.clients[c];
    match a
    case Work(local, pool) => LocalSound(local)
    case Clone => w.store != []
    case Settle(at) => Starts(w, client, at, limit) && at.Empty()
    case Begin(at) => Starts(w, client, at, limit) && at.Honest()
    case Upload(segment) => client.phase.Uploading? && segment in client.phase.at.built
    case Put => client.phase.Uploading? && forall s :: s in client.phase.at.built ==> s in client.phase.sent
    case Stop => true
  }

  /** A clone holds what the manifest does, and has synced every head of it. */
  function Cloned(m: ServeManifest): Client {
    Client(map f | f in m.forks :: LocalFork(m.forks[f].anchor, m.forks[f].headSum, LogOf(m, f)),
           BlobsOf(m.segments.Keys), Some(m), map f | f in m.forks :: m.forks[f].headId, Idle)
  }

  /** What the step does to its client. */
  function Moved(w: World, client: Client, a: Action): Client
    requires a.Clone? ==> w.store != []
    requires a.Upload? || a.Put? ==> client.phase.Uploading?
  {
    match a
    case Work(local, pool) => client.(local := local, pool := pool)
    case Clone => Cloned(w.store[|w.store| - 1])
    case Settle(at) => client.(cached := at.published, synced := client.synced + at.plan.synced, phase := Idle)
    case Begin(at) => client.(cached := at.published, phase := Uploading(at, TriesOf(client.phase) + 1, {}))
    case Upload(segment) => client.(phase := client.phase.(sent := client.phase.sent + {segment}))
    case Put =>
      var at := client.phase.at;
      if Wins(w.store, at)
      then client.(cached := Some(at.Result()), synced := client.synced + at.plan.synced, phase := Idle)
      else client.(phase := Retrying(client.phase.tries))
    case Stop => client.(phase := Idle)
  }

  /** What the step does; a client can stop (crash, give up, or finish) at any point. */
  function Step(w: World, c: nat, a: Action): World
    requires c < |w.clients|
    requires a.Clone? ==> w.store != []
    requires a.Upload? || a.Put? ==> w.clients[c].phase.Uploading?
  {
    var client := w.clients[c];
    World(if a.Put? && Wins(w.store, client.phase.at) then w.store + [client.phase.at.Result()] else w.store,
          if a.Upload? then w.objects + {a.segment} else w.objects,
          w.clients[c := Moved(w, client, a)])
  }

  ghost predicate Init(w: World) {
    && w.store == [] && w.objects == {}
    && forall c :: 0 <= c < |w.clients| ==> w.clients[c].phase.Idle? && w.clients[c].synced == map[]
  }

  /** A run: any interleaving of the clients' steps. */
  ghost predicate Run(ws: seq<World>, cs: seq<nat>, acts: seq<Action>, limit: nat) {
    && |ws| == |cs| + 1 == |acts| + 1 && Init(ws[0])
    && forall n :: 0 <= n < |acts| ==> Stepped(ws[n], cs[n], acts[n], ws[n + 1], limit)
  }

  ghost predicate Stepped(w: World, c: nat, a: Action, next: World, limit: nat) {
    c < |w.clients| && Enabled(w, c, a, limit) && next == Step(w, c, a)
  }

  ///////////////////////////////////////////// invariant ///////////////////////////////////////////////

  ghost predicate Sound(m: ServeManifest, limit: nat) {
    exists depth :: Good(m, depth, limit)
  }

  ghost predicate StoreSound(store: Store, objects: set<Segment>, limit: nat) {
    && StoreChained(store)
    && (forall n :: 0 <= n < |store| ==> Sound(store[n], limit) && store[n].segments.Keys <= objects)
    && Extending(store)
  }

  /** Each manifest extends the one before it. */
  ghost predicate Extending(store: Store) {
    forall n :: 0 < n < |store| ==> Extends(store[n - 1], store[n])
  }

  /** An upload in progress is an honest attempt over a manifest the store still holds. */
  ghost predicate UploadSound(client: Client, store: Store, objects: set<Segment>, limit: nat) {
    client.phase.Uploading? ==>
      var at := client.phase.at;
      && at.Honest() && at.limit == limit
      && (at.published.Some? ==> Get(store, at.published.value.number) == at.published)
      && client.phase.sent <= objects
  }

  /** Some manifest published `id` as the fork's head. */
  ghost predicate Held(store: Store, f: string, id: Id) {
    exists i :: 0 <= i < |store| && f in store[i].forks && store[i].forks[f].headId == id
  }

  /** Every head a client counts as synced was once the store's. */
  ghost predicate SyncedSound(synced: map<string, Id>, store: Store) {
    forall f :: f in synced ==> Held(store, f, synced[f])
  }

  ghost predicate ClientSound(client: Client, store: Store, objects: set<Segment>, limit: nat) {
    UploadSound(client, store, objects, limit) && SyncedSound(client.synced, store)
  }

  ghost predicate Invariant(w: World, limit: nat) {
    && StoreSound(w.store, w.objects, limit)
    && forall c :: 0 <= c < |w.clients| ==> ClientSound(w.clients[c], w.store, w.objects, limit)
  }

  lemma SyncedKept(synced: map<string, Id>, store: Store, store': Store)
    requires SyncedSound(synced, store) && store <= store'
    ensures SyncedSound(synced, store')
  {
    forall f | f in synced ensures Held(store', f, synced[f]) {
      var i :| 0 <= i < |store| && f in store[i].forks && store[i].forks[f].headId == synced[f];
      assert store'[i] == store[i];
    }
  }

  /** A client's upload is unmoved by what the others publish and upload. */
  lemma ClientKept(client: Client, store: Store, objects: set<Segment>, store': Store, objects': set<Segment>,
                   limit: nat)
    requires ClientSound(client, store, objects, limit) && store <= store' && objects <= objects'
    ensures ClientSound(client, store', objects', limit)
  {
    SyncedKept(client.synced, store, store');
  }

  lemma SyncedMerged(synced: map<string, Id>, more: map<string, Id>, store: Store, m: ServeManifest)
    requires SyncedSound(synced, store) && m in store
    requires forall f :: f in more ==> f in m.forks && m.forks[f].headId == more[f]
    ensures SyncedSound(synced + more, store)
  {
    var i :| 0 <= i < |store| && store[i] == m;
    forall f | f in synced + more ensures Held(store, f, (synced + more)[f]) {
      if f in more { assert f in store[i].forks; } else { assert Held(store, f, synced[f]); }
    }
  }

  /** The heads a plan counts as synced are those of the manifest it leads to. */
  lemma SyncedHead(b: ServeManifest, local: Local, synced: map<string, Id>, f: string)
    requires f in local && f in NewSynced(b, local, synced, local.Keys)
    ensures f in NewHeads(b, local, synced, local.Keys)
            || (f in b.forks && b.forks[f].headId == NewSynced(b, local, synced, local.Keys)[f])
    ensures f in NewHeads(b, local, synced, local.Keys) ==>
              NewHeads(b, local, synced, local.Keys)[f].headId == NewSynced(b, local, synced, local.Keys)[f]
  {
    assert DecisionFor(b, local, synced, f).Advance? ==> Publishes(b, local, synced, f);
  }

  lemma NextHead(published: Option<ServeManifest>, heads: map<string, ForkHead>, folded: set<Segment>,
                 built: seq<Segment>, packedLen: Segment -> nat, f: string)
    requires f in heads || f in BaseOf(published).forks
    ensures var next := Next(published, heads, folded, built, packedLen);
            f in next.forks && next.forks[f].headId == if f in heads then heads[f].headId
              else BaseOf(published).forks[f].headId
  {
  }

  lemma SyncedByPlan(at: Attempt)
    requires at.Planned()
    ensures forall f :: f in at.plan.synced ==>
        f in at.Result().forks && at.Result().forks[f].headId == at.plan.synced[f]
    ensures at.plan.heads == map[] ==>
              forall f :: f in at.plan.synced ==> f in at.Base().forks && at.Base().forks[f].headId == at.plan.synced[f]
  {
    forall f | f in at.plan.synced ensures f in at.Result().forks && at.Result().forks[f].headId == at.plan.synced[f] {
      SyncedHead(at.Base(), at.local, at.synced, f);
      NextHead(at.published, at.plan.heads, at.folded, at.built, at.packedLen, f);
    }
    forall f | at.plan.heads == map[] && f in at.plan.synced
      ensures f in at.Base().forks && at.Base().forks[f].headId == at.plan.synced[f]
    {
      SyncedHead(at.Base(), at.local, at.synced, f);
    }
  }

  /** A put that wins extends the very manifest the attempt was planned on. */
  lemma WinnerIsLatest(store: Store, at: Attempt)
    requires StoreChained(store) && Wins(store, at)
    requires at.published.Some? ==> Get(store, at.published.value.number) == at.published
    ensures at.published == Latest(store) && at.Result().number == |store| + 1
  {
  }

  /** One more manifest that chains, is good, and extends the latest. */
  lemma StoreGrown(store: Store, objects: set<Segment>, m: ServeManifest, limit: nat)
    requires StoreSound(store, objects, limit) && Sound(m, limit) && m.segments.Keys <= objects
    requires m.number == |store| + 1 && m.prev == Latest(store)
    requires store != [] ==> Extends(store[|store| - 1], m)
    ensures StoreSound(store + [m], objects, limit)
  {
    ChainGrown(store, m);
    forall n | 0 < n < |store + [m]| ensures Extends((store + [m])[n - 1], (store + [m])[n]) {
      if n < |store| { assert Extends(store[n - 1], store[n]); }
    }
  }

  lemma ChainGrown(store: Store, m: ServeManifest)
    requires StoreChained(store) && m.number == |store| + 1 && m.prev == Latest(store)
    ensures StoreChained(store + [m])
  {
    forall n | 0 <= n < |store| + 1 ensures ChainedAt(store + [m], n) {
      if n < |store| { assert ChainedAt(store, n); }
    }
  }

  lemma AttemptSegments(at: Attempt, objects: set<Segment>)
    requires at.Base().segments.Keys <= objects && forall s :: s in at.built ==> s in objects
    ensures at.Result().segments.Keys <= objects
  {
  }

  lemma PutKeepsStore(store: Store, objects: set<Segment>, at: Attempt, limit: nat)
    requires StoreSound(store, objects, limit) && at.Honest() && at.limit == limit && Wins(store, at)
    requires at.published.Some? ==> Get(store, at.published.value.number) == at.published
    requires forall s :: s in at.built ==> s in objects
    ensures StoreSound(store + [at.Result()], objects, limit)
  {
    WinnerIsLatest(store, at);
    SwapIsGood(at);
    assert Sound(at.Result(), limit);
    AttemptSegments(at, objects);
    StoreGrown(store, objects, at.Result(), limit);
  }

  lemma StepKeepsStore(w: World, c: nat, a: Action, limit: nat)
    requires Invariant(w, limit) && c < |w.clients| && Enabled(w, c, a, limit)
    ensures StoreSound(Step(w, c, a).store, Step(w, c, a).objects, limit)
    ensures w.store <= Step(w, c, a).store && w.objects <= Step(w, c, a).objects
  {
    assert ClientSound(w.clients[c], w.store, w.objects, limit);
    if a.Put? && Wins(w.store, w.clients[c].phase.at) {
      PutKeepsStore(w.store, w.objects, w.clients[c].phase.at, limit);
    }
  }

  /** The client that moves stays sound. */
  lemma MovedIsSound(w: World, client: Client, c: nat, a: Action, limit: nat)
    requires StoreSound(w.store, w.objects, limit) && ClientSound(client, w.store, w.objects, limit)
    requires c < |w.clients| && client == w.clients[c] && Enabled(w, c, a, limit)
    requires w.store <= Step(w, c, a).store && w.objects <= Step(w, c, a).objects
    ensures ClientSound(Moved(w, client, a), Step(w, c, a).store, Step(w, c, a).objects, limit)
  {
    var store := Step(w, c, a).store;
    SyncedKept(client.synced, w.store, store);
    match a {
      case Clone => SyncedMerged(map[], Cloned(w.store[|w.store| - 1]).synced, store, w.store[|w.store| - 1]);
      case Settle(at) => SettleIsSound(client, at, store);
      case Begin(at) => if w.store != [] { LatestIsHeld(w.store); }
      case Put =>
        if Wins(w.store, client.phase.at) { PutIsSound(client.synced, client.phase.at, w.store); }
      case _ =>
    }
  }

  lemma PutIsSound(synced: map<string, Id>, at: Attempt, store: Store)
    requires SyncedSound(synced, store + [at.Result()]) && at.Planned()
    ensures SyncedSound(synced + at.plan.synced, store + [at.Result()])
  {
    SyncedByPlan(at);
    assert (store + [at.Result()])[|store|] == at.Result();
    SyncedMerged(synced, at.plan.synced, store + [at.Result()], at.Result());
  }

  lemma SettleIsSound(client: Client, at: Attempt, store: Store)
    requires SyncedSound(client.synced, store) && at.Planned() && at.Empty() && at.published == Latest(store)
    ensures SyncedSound(client.synced + at.plan.synced, store)
  {
    SyncedByPlan(at);
    if store != [] {
      SyncedMerged(client.synced, at.plan.synced, store, store[|store| - 1]);
    } else {
      assert at.plan.synced == map[];
    }
  }

  lemma StepKeeps(w: World, c: nat, a: Action, limit: nat)
    requires Invariant(w, limit) && c < |w.clients| && Enabled(w, c, a, limit)
    ensures Invariant(Step(w, c, a), limit)
    ensures w.store <= Step(w, c, a).store
  {
    var next := Step(w, c, a);
    StepKeepsStore(w, c, a, limit);
    forall k | 0 <= k < |next.clients| ensures ClientSound(next.clients[k], next.store, next.objects, limit) {
      assert ClientSound(w.clients[k], w.store, w.objects, limit);
      if k == c {
        MovedIsSound(w, w.clients[c], c, a, limit);
      } else {
        ClientKept(w.clients[k], w.store, w.objects, next.store, next.objects, limit);
      }
    }
  }

  /** Every reachable world keeps the invariant. */
  lemma {:induction false} RunKeeps(ws: seq<World>, cs: seq<nat>, acts: seq<Action>, limit: nat, n: nat)
    requires Run(ws, cs, acts, limit) && n < |ws|
    ensures Invariant(ws[n], limit)
  {
    if n > 0 {
      RunKeeps(ws, cs, acts, limit, n - 1);
      assert Stepped(ws[n - 1], cs[n - 1], acts[n - 1], ws[n], limit);
      StepKeeps(ws[n - 1], cs[n - 1], acts[n - 1], limit);
    }
  }

  //////////////////////////////////////////////// safety ///////////////////////////////////////////////

  lemma {:induction false} ExtendsAcross(store: Store, i: nat, j: nat, f: string)
    requires i <= j < |store| && f in store[i].forks
    requires Extending(store)
    ensures f in store[j].forks && LogOf(store[i], f) <= LogOf(store[j], f)
  {
    if i < j {
      ExtendsAcross(store, i, j - 1, f);
      assert Extends(store[j - 1], store[j]);
    }
  }

  /** Push safety, over every interleaving of any number of clients: no fork ever disappears,
      and the log a later manifest assembles extends the one any earlier manifest did. */
  lemma PushSafety(ws: seq<World>, cs: seq<nat>, acts: seq<Action>, limit: nat, n: nat, i: nat, j: nat, f: string)
    requires Run(ws, cs, acts, limit) && n < |ws|
    requires i <= j < |ws[n].store| && f in ws[n].store[i].forks
    ensures f in ws[n].store[j].forks && LogOf(ws[n].store[i], f) <= LogOf(ws[n].store[j], f)
  {
    RunKeeps(ws, cs, acts, limit, n);
    ExtendsAcross(ws[n].store, i, j, f);
  }

  /** What is published stays published. */
  lemma {:induction false} StoreOnlyGrows(ws: seq<World>, cs: seq<nat>, acts: seq<Action>, limit: nat, n: nat, m: nat)
    requires Run(ws, cs, acts, limit) && n <= m < |ws|
    ensures ws[n].store <= ws[m].store
  {
    if n < m {
      StoreOnlyGrows(ws, cs, acts, limit, n, m - 1);
      StepGrowsStore(ws, cs, acts, limit, m - 1);
    }
  }

  lemma StepGrowsStore(ws: seq<World>, cs: seq<nat>, acts: seq<Action>, limit: nat, n: nat)
    requires Run(ws, cs, acts, limit) && n < |acts|
    ensures ws[n].store <= ws[n + 1].store
  {
    RunKeeps(ws, cs, acts, limit, n);
    assert Stepped(ws[n], cs[n], acts[n], ws[n + 1], limit);
    StepKeeps(ws[n], cs[n], acts[n], limit);
  }

  /** In every reachable manifest the image is a set, every segment has been uploaded, and the
      constructs resolve: whoever fetches it unpacks every blob. */
  lemma ReachableUnpacks(ws: seq<World>, cs: seq<nat>, acts: seq<Action>, limit: nat, n: nat, i: nat)
    returns (depth: map<Text, nat>)
    requires Run(ws, cs, acts, limit) && n < |ws| && i < |ws[n].store|
    ensures var m := ws[n].store[i];
            && Good(m, depth, limit) && m.segments.Keys <= ws[n].objects
            && UniqueBlobs(m.segments.Keys) && Bounded(depth, limit)
            && Resolvable(LiveItems(m.segments.Keys), PackedLines(m.segments.Keys), depth)
  {
    RunKeeps(ws, cs, acts, limit, n);
    assert Sound(ws[n].store[i], limit);
    depth :| Good(ws[n].store[i], depth, limit);
    GoodIsResolvable(ws[n].store[i], depth, limit);
  }

  ghost predicate HeadReads(m: ServeManifest, f: string) {
    f in m.forks ==> Chained(LogOf(m, f)) && HeadId(LogOf(m, f)) == m.forks[f].headId
  }

  /** Every manifest's heads are those of the logs it assembles. */
  ghost predicate Readable(store: Store) {
    forall i, f :: 0 <= i < |store| ==> HeadReads(store[i], f)
  }

  lemma SoundReads(store: Store, objects: set<Segment>, limit: nat)
    requires StoreSound(store, objects, limit)
    ensures Readable(store) && Extending(store)
  {
    forall i, f | 0 <= i < |store| ensures HeadReads(store[i], f) {
      assert Sound(store[i], limit);
      var depth :| Good(store[i], depth, limit);
      if f in store[i].forks { assert HeadSound(store[i], f); }
    }
  }

  /** Lines whose head the store published, and has moved past, are properly extended by the latest log. */
  lemma MovedPast(store: Store, i: nat, f: string, lines: seq<Line>)
    requires Readable(store) && Extending(store) && i < |store| && f in store[i].forks
    requires Chained(lines) && store[i].forks[f].headId == HeadId(lines)
    requires f in store[|store| - 1].forks && store[|store| - 1].forks[f].headId != HeadId(lines)
    ensures lines < LogOf(store[|store| - 1], f)
  {
    assert HeadReads(store[i], f) && HeadReads(store[|store| - 1], f);
    HeadFixesLog(LogOf(store[i], f), lines);
    ExtendsAcross(store, i, |store| - 1, f);
  }

  lemma BehindWasSynced(m: ServeManifest, local: Local, synced: map<string, Id>, f: string)
    requires f in local && f in m.forks && DecisionFor(m, local, synced, f).Behind?
    ensures f in synced && synced[f] == HeadId(local[f].lines) && m.forks[f].headId != synced[f]
  {
  }

  /** A fork a push leaves alone because the client is behind really is: the store's log
      extends what the client holds. */
  lemma BehindIsBehind(store: Store, local: Local, synced: map<string, Id>, f: string)
    requires Readable(store) && Extending(store) && SyncedSound(synced, store) && store != []
    requires f in local && f in store[|store| - 1].forks && Chained(local[f].lines)
    requires DecisionFor(store[|store| - 1], local, synced, f).Behind?
    ensures local[f].lines < LogOf(store[|store| - 1], f)
  {
    BehindWasSynced(store[|store| - 1], local, synced, f);
    assert Held(store, f, synced[f]);
    var i :| 0 <= i < |store| && f in store[i].forks && store[i].forks[f].headId == synced[f];
    MovedPast(store, i, f, local[f].lines);
  }

  /** A decision is right about how the client's log stands to the store's. */
  predicate Right(d: Decision, log: seq<Line>, lines: seq<Line>) {
    && (d.InSync? <==> log == lines) && (d.Advance? <==> log < lines)
    && (d.Behind? ==> lines < log)
    && (!(log <= lines) && !(lines <= log) ==> d.Diverged?)
  }

  lemma DecisionIsRight(store: Store, local: Local, synced: map<string, Id>, f: string)
    requires Readable(store) && Extending(store) && SyncedSound(synced, store) && store != []
    requires f in local && f in store[|store| - 1].forks && Chained(local[f].lines)
    ensures Right(DecisionFor(store[|store| - 1], local, synced, f), LogOf(store[|store| - 1], f), local[f].lines)
  {
    var m := store[|store| - 1];
    assert HeadReads(m, f);
    DecideIsSafe(m.forks[f], LogOf(m, f), local[f].lines, SyncedAt(synced, f));
    if DecisionFor(m, local, synced, f).Behind? { BehindIsBehind(store, local, synced, f); }
  }

  /** Every way a client's fork can stand to the store's: the same, ahead, behind, or diverged;
      and where neither log extends the other it is always found diverged. */
  lemma DecisionsAreRight(w: World, c: nat, limit: nat, f: string)
    requires Invariant(w, limit) && c < |w.clients| && w.store != []
    requires f in w.clients[c].local && f in w.store[|w.store| - 1].forks && Chained(w.clients[c].local[f].lines)
    ensures var m, client := w.store[|w.store| - 1], w.clients[c];
            Right(DecisionFor(m, client.local, client.synced, f), LogOf(m, f), client.local[f].lines)
  {
    SoundReads(w.store, w.objects, limit);
    assert ClientSound(w.clients[c], w.store, w.objects, limit);
    DecisionIsRight(w.store, w.clients[c].local, w.clients[c].synced, f);
  }

  /** A diverged fork is refused, never spliced: no push of a client that holds one can start. */
  lemma DivergedCannotStart(w: World, c: nat, at: Attempt, limit: nat, f: string)
    requires Invariant(w, limit) && c < |w.clients| && w.store != []
    requires f in w.clients[c].local && f in w.store[|w.store| - 1].forks
    requires var log, lines := LogOf(w.store[|w.store| - 1], f), w.clients[c].local[f].lines;
             !(log <= lines) && !(lines <= log)
    ensures !Starts(w, w.clients[c], at, limit)
  {
    if Starts(w, w.clients[c], at, limit) {
      assert Chained(w.clients[c].local[f].lines);
      DecisionsAreRight(w, c, limit, f);
    }
  }

  /** When a put wins, the store holds the pusher's whole pool, and every fork the push
      published reads exactly as the pusher's did. */
  lemma WinnerIsCarried(w: World, c: nat, limit: nat, f: string)
    requires Invariant(w, limit) && c < |w.clients| && Enabled(w, c, Put, limit) && Wins(w.store, w.clients[c].phase.at)
    ensures var at, next := w.clients[c].phase.at, Step(w, c, Put).store;
            && |next| == |w.store| + 1
            && at.pool <= BlobsOf(next[|w.store|].segments.Keys)
            && (f in at.plan.heads ==>
                  && f in next[|w.store|].forks && f in at.local
                  && LogOf(next[|w.store|], f) == at.local[f].lines)
  {
    var at := w.clients[c].phase.at;
    assert ClientSound(w.clients[c], w.store, w.objects, limit);
    SwapCarriesBlobs(at);
    if f in at.plan.heads {
      assert f in at.Result().forks;
      SwapCarriesLogs(at, f);
    }
  }

  ////////////////////////////////////////////// one attempt ////////////////////////////////////////////

  /** Discover, load, plan and assemble: what begins an attempt is honest, over the latest
      manifest.  Only a fork the store has moved past is refused. */
  method Prepare(store: Store, client: Client, policy: Policy, ghost depth: map<Text, nat>)
    returns (r: Result<Option<(seq<Segment>, ServeManifest)>, Error>, ghost at: Attempt)
    requires StoreChained(store) && LocalSound(client.local)
    requires Good(BaseOf(Latest(store)), depth, policy.keyframeInterval)
    ensures r == Err(Invalid) <==>
        exists f :: f in client.local && DecisionFor(BaseOf(Latest(store)), client.local, client.synced, f).Diverged?
    ensures r.Ok? ==>
              && at.Planned() && at.published == Latest(store) && at.local == client.local && at.pool == client.pool
              && at.synced == client.synced && at.limit == policy.keyframeInterval
    ensures r.Ok? && r.value.None? ==> at.Empty()
    ensures r.Ok? && r.value.Some? ==> at.Honest() && r.value.value == (at.built, at.Result())
  {
    var published := Discover(store, client.cached);
    var b := BaseOf(published.value);
    var view := Load(b.segments.Keys, depth);
    SameDepths(b, depth, view.value.depth, policy.keyframeInterval);
    var plan := PlanOf(b, view.value, client.local, client.pool, client.synced, policy.keyframeInterval);
    at := Attempt(None, map[], 0, map[], {}, map[], Plan([], [], map[], map[], map[]), {}, [], [], [],
                  policy.packedLen);
    if plan.Err? { return Err(plan.error), at; }
    r, at := Assemble(published.value, view.value, client.local, client.pool, client.synced, plan.value, policy);
  }

  lemma SameDepths(b: ServeManifest, depth: map<Text, nat>, loaded: map<Text, nat>, limit: nat)
    requires Good(b, depth, limit) && Ranked(LiveItems(b.segments.Keys), loaded)
    ensures Good(b, loaded, limit)
  {
    forall t | t in loaded ensures loaded[t] <= limit {
      RankIsUnique(LiveItems(b.segments.Keys), loaded, depth, t);
    }
  }
}
