/** `load_or_create_client_identity` under concurrency and crashes: any number of creators over one
    state store and one secret store, each step separate, none obliged to take its next one. */
module IdentityCreation {
  import opened Prelude
  import opened Credentials

  /** An endpoint's secret key, named by its public half. */
  datatype SecretKey = SecretKey(endpoint: EndpointId)

  /** Identifiers are derived from network, application and endpoint by domain-separated hashing. */
  datatype SecretId = SecretId(network: NetworkId, app: AppAddr, endpoint: EndpointId)
  datatype ClientId = ClientId(network: NetworkId, app: AppAddr, endpoint: EndpointId)

  datatype IdentityRecord = IdentityRecord(secretId: SecretId, endpoint: EndpointId, device: ClientId)

  datatype Identity = Identity(key: SecretKey, device: ClientId, secretId: SecretId)

  datatype Scope = Scope(network: NetworkId, app: AppAddr)

  function SecretIdOf(s: Scope, key: SecretKey): SecretId {
    SecretId(s.network, s.app, key.endpoint)
  }

  function RecordOf(s: Scope, key: SecretKey): IdentityRecord {
    IdentityRecord(SecretIdOf(s, key), key.endpoint, ClientId(s.network, s.app, key.endpoint))
  }

  function IdentityOf(s: Scope, key: SecretKey): Identity {
    Identity(key, ClientId(s.network, s.app, key.endpoint), SecretIdOf(s, key))
  }

  datatype Creator =
    | Starting
    | Loading(record: IdentityRecord)
    | Generated(key: SecretKey)
    | SecretSealed(key: SecretKey)
    | Confirmed(key: SecretKey)
    | LostRace(key: SecretKey)
    | LoadingWinner(key: SecretKey, record: IdentityRecord)
    | Discarding(key: SecretKey, winner: Identity)
    | Returned(identity: Identity)
    | Failed

  datatype State = State(record: Option<IdentityRecord>, secrets: map<SecretId, SecretKey>, creators: map<nat, Creator>)

  /** `Advance` draws `drawn` where the creator needs a new key. */
  datatype Event = Arrive(h: nat) | Advance(h: nat, drawn: SecretKey) | Crash(h: nat)

  function Put(st: State, h: nat, c: Creator): State {
    st.(creators := st.creators[h := c])
  }

  /** The checks of `load_existing` once the record has been read: the secret must be there and
      match the committed public identity and device. */
  function Load(s: Scope, secrets: map<SecretId, SecretKey>, record: IdentityRecord): Option<Identity> {
    if record.secretId !in secrets then None
    else
      var key := secrets[record.secretId];
      if key.endpoint != record.endpoint || ClientId(s.network, s.app, record.endpoint) != record.device then None
      else Some(Identity(key, record.device, record.secretId))
  }

  function Next(s: Scope, st: State, h: nat, drawn: SecretKey): State
    requires h in st.creators
  {
    match st.creators[h]
    case Starting => Put(st, h, if st.record.Some? then Loading(st.record.value) else Generated(drawn))
    case Loading(record) =>
      (match Load(s, st.secrets, record)
       case Some(identity) => Put(st, h, Returned(identity))
       case None => Put(st, h, Failed))
    case Generated(key) =>
      var id := SecretIdOf(s, key);
      if id in st.secrets && st.secrets[id] != key then Put(st, h, Failed)
      else Put(st.(secrets := st.secrets[id := key]), h, SecretSealed(key))
    case SecretSealed(key) =>
      var id := SecretIdOf(s, key);
      Put(st, h, if id in st.secrets && st.secrets[id] == key then Confirmed(key) else Failed)
    case Confirmed(key) =>
      if st.record.None? then Put(st.(record := Some(RecordOf(s, key))), h, Returned(IdentityOf(s, key)))
      else Put(st, h, LostRace(key))
    case LostRace(key) => Put(st, h, if st.record.Some? then LoadingWinner(key, st.record.value) else Failed)
    case LoadingWinner(key, record) =>
      (match Load(s, st.secrets, record)
       case Some(winner) => Put(st, h, if winner.secretId != SecretIdOf(s, key) then Discarding(key, winner) else Returned(winner))
       case None => Put(st, h, Failed))
    case Discarding(key, winner) => Put(st.(secrets := st.secrets - {SecretIdOf(s, key)}), h, Returned(winner))
    case _ => st
  }

  function Happen(s: Scope, st: State, e: Event): State {
    match e
    case Arrive(h) => if h in st.creators then st else Put(st, h, Starting)
    case Advance(h, drawn) => if h in st.creators then Next(s, st, h, drawn) else st
    case Crash(h) => st.(creators := st.creators - {h})
  }

  function Unfold(s: Scope, st: State, events: seq<Event>): State {
    if events == [] then st else Happen(s, Unfold(s, st, events[..|events| - 1]), events[|events| - 1])
  }

  // ---- the invariant ----

  /** A secret is only ever stored under the identifier derived from it. */
  predicate SecretsTrue(s: Scope, secrets: map<SecretId, SecretKey>) {
    forall id :: id in secrets ==> id == SecretIdOf(s, secrets[id])
  }

  predicate Stored(s: Scope, st: State, key: SecretKey) {
    SecretIdOf(s, key) in st.secrets && st.secrets[SecretIdOf(s, key)] == key
  }

  /** The committed record is backed by a stored secret that matches its public keys. */
  predicate Backed(s: Scope, st: State) {
    st.record.Some? ==> exists key :: key in st.secrets.Values && st.record.value == RecordOf(s, key) && Stored(s, st, key)
  }

  predicate CreatorOk(s: Scope, st: State, c: Creator) {
    match c
    case Loading(record) => st.record == Some(record)
    case SecretSealed(key) => st.record.None? ==> Stored(s, st, key)
    case Confirmed(key) => st.record.None? ==> Stored(s, st, key)
    case LostRace(_) => st.record.Some?
    case LoadingWinner(_, record) => st.record == Some(record)
    case Discarding(key, winner) => st.record == Some(RecordOf(s, winner.key)) && winner == IdentityOf(s, winner.key) && winner.key != key
    case Returned(identity) => st.record == Some(RecordOf(s, identity.key)) && identity == IdentityOf(s, identity.key)
    case _ => true
  }

  ghost predicate Safe(s: Scope, st: State) {
    && SecretsTrue(s, st.secrets) && Backed(s, st)
    && (forall h :: h in st.creators ==> CreatorOk(s, st, st.creators[h]))
  }

  /** A backed record always loads, and to the one identity it names. */
  lemma BackedLoads(s: Scope, st: State)
    requires Safe(s, st) && st.record.Some?
    ensures var identity := Load(s, st.secrets, st.record.value);
            identity.Some? && identity.value == IdentityOf(s, identity.value.key) && st.record.value == RecordOf(s, identity.value.key)
  {
  }

  lemma NextIsSafe(s: Scope, st: State, h: nat, drawn: SecretKey)
    requires Safe(s, st) && h in st.creators
    ensures Safe(s, Next(s, st, h, drawn))
  {
    var c := st.creators[h];
    assert CreatorOk(s, st, c);
    if st.record.Some? {
      BackedLoads(s, st);
    }
    if c.Confirmed? && st.record.None? {
      assert c.key in st.secrets.Values;
    }
    if c.Generated? {
      var id := SecretIdOf(s, c.key);
      var st' := Next(s, st, h, drawn);
      if st.record.Some? {
        var key :| key in st.secrets.Values && st.record.value == RecordOf(s, key) && Stored(s, st, key);
        assert SecretIdOf(s, key) in st'.secrets && st'.secrets[SecretIdOf(s, key)] == key;
        assert key in st'.secrets.Values;
      }
    }
    if c.Discarding? {
      var st' := Next(s, st, h, drawn);
      var key :| key in st.secrets.Values && st.record.value == RecordOf(s, key) && Stored(s, st, key);
      assert SecretIdOf(s, key) in st'.secrets && st'.secrets[SecretIdOf(s, key)] == key;
      assert key in st'.secrets.Values;
    }
  }

  // ---- every schedule ----

  /** No record and no creator yet; earlier crashes may have left secrets behind. */
  predicate Beginning(s: Scope, st: State) {
    st.record.None? && st.creators == map[] && SecretsTrue(s, st.secrets)
  }

  lemma {:induction false} AlwaysSafe(s: Scope, st: State, events: seq<Event>)
    requires Safe(s, st)
    ensures Safe(s, Unfold(s, st, events))
  {
    hide Safe, Next;
    if events != [] {
      var before, e := Unfold(s, st, events[..|events| - 1]), events[|events| - 1];
      AlwaysSafe(s, st, events[..|events| - 1]);
      if e.Advance? && e.h in before.creators {
        NextIsSafe(s, before, e.h, e.drawn);
      } else {
        ArrivalIsSafe(s, before, e);
      }
    }
  }

  lemma ArrivalIsSafe(s: Scope, st: State, e: Event)
    requires Safe(s, st) && (e.Advance? ==> e.h !in st.creators)
    ensures Safe(s, Happen(s, st, e))
  {
  }

  /** A committed record is never replaced. */
  lemma {:induction false} RecordStays(s: Scope, st: State, events: seq<Event>)
    requires st.record.Some?
    ensures Unfold(s, st, events).record == st.record
  {
    hide Load;
    if events != [] {
      RecordStays(s, st, events[..|events| - 1]);
    }
  }

  lemma {:induction false} UnfoldSplit(s: Scope, st: State, a: seq<Event>, b: seq<Event>)
    ensures Unfold(s, st, a + b) == Unfold(s, Unfold(s, st, a), b)
  {
    hide Happen;
    if b == [] {
      assert a + b == a;
    } else {
      UnfoldSplit(s, st, a, b[..|b| - 1]);
      assert (a + b)[..|a + b| - 1] == a + b[..|b| - 1];
    }
  }

  /** A committed identity is never dangling: at every moment of every schedule its secret is
      stored, matches, and loads. */
  lemma NeverDangling(s: Scope, st: State, events: seq<Event>)
    requires Beginning(s, st)
    ensures var now := Unfold(s, st, events);
            now.record.Some? ==> Load(s, now.secrets, now.record.value).Some?
  {
    AlwaysSafe(s, st, events);
    if Unfold(s, st, events).record.Some? {
      BackedLoads(s, Unfold(s, st, events));
    }
  }

  /** All creators that ever return, at whatever moments, return the same identity, and it is the
      committed one. */
  lemma OneIdentity(s: Scope, st: State, events: seq<Event>, more: seq<Event>, g: nat, h: nat)
    requires Beginning(s, st)
    ensures var a, b := Unfold(s, st, events), Unfold(s, st, events + more);
            g in a.creators && a.creators[g].Returned? && h in b.creators && b.creators[h].Returned? ==>
              a.creators[g].identity == b.creators[h].identity && b.record == Some(RecordOf(s, a.creators[g].identity.key))
  {
    hide Unfold;
    var a, b := Unfold(s, st, events), Unfold(s, st, events + more);
    AlwaysSafe(s, st, events);
    AlwaysSafe(s, st, events + more);
    UnfoldSplit(s, st, events, more);
    if g in a.creators && a.creators[g].Returned? && h in b.creators && b.creators[h].Returned? {
      assert CreatorOk(s, a, a.creators[g]) && CreatorOk(s, b, b.creators[h]);
      RecordStays(s, a, more);
    }
  }

  // ---- what one creator comes to ----

  /** A record loads exactly if its secret is there, has the committed public key, and the device is the
      one derived for this network, application and endpoint. */
  lemma LoadsExactlyWhen(s: Scope, secrets: map<SecretId, SecretKey>, record: IdentityRecord)
    ensures Load(s, secrets, record).Some? <==>
            && record.secretId in secrets && secrets[record.secretId] == SecretKey(record.endpoint)
            && record.device == ClientId(s.network, s.app, record.endpoint)
    ensures Load(s, secrets, record).Some? ==> Load(s, secrets, record).value == Identity(SecretKey(record.endpoint), record.device, record.secretId)
  {
  }

  function Steps(s: Scope, st: State, h: nat, drawn: SecretKey, n: nat): State {
    if n == 0 then st
    else
      var before := Steps(s, st, h, drawn, n - 1);
      if h in before.creators then Next(s, before, h, drawn) else before
  }

  lemma FirstStep(s: Scope, st: State, h: nat, drawn: SecretKey, n: nat)
    requires h in st.creators && n > 0
    ensures Steps(s, st, h, drawn, n) == Steps(s, Next(s, st, h, drawn), h, drawn, n - 1)
    decreases n
  {
    if n > 1 {
      FirstStep(s, st, h, drawn, n - 1);
    }
  }

  lemma TwoSteps(s: Scope, st: State, h: nat, drawn: SecretKey)
    requires h in st.creators && h in Next(s, st, h, drawn).creators
    ensures Steps(s, st, h, drawn, 2) == Next(s, Next(s, st, h, drawn), h, drawn)
  {
    FirstStep(s, st, h, drawn, 2);
    FirstStep(s, Next(s, st, h, drawn), h, drawn, 1);
  }

  lemma PutAgain(st: State, h: nat, c: Creator, d: Creator)
    ensures Put(Put(st, h, c), h, d) == Put(st, h, d)
  {
    assert st.creators[h := c][h := d] == st.creators[h := d];
  }

  /** Where an identity is committed, a creator returns that one and changes nothing. */
  lemma UndisturbedLoads(s: Scope, st: State, h: nat, drawn: SecretKey)
    requires Safe(s, st) && h in st.creators && st.creators[h] == Starting && st.record.Some?
    ensures var after := Steps(s, st, h, drawn, 2);
            && after.record == st.record && after.secrets == st.secrets && h in after.creators && after.creators[h].Returned?
            && st.record == Some(RecordOf(s, after.creators[h].identity.key)) && after.creators[h].identity == IdentityOf(s, after.creators[h].identity.key)
  {
    hide Safe, Load, RecordOf, IdentityOf;
    BackedLoads(s, st);
    TwoSteps(s, st, h, drawn);
  }

  /** Where there is none, an undisturbed creator seals the key it draws, commits its record and returns
      it. */
  lemma UndisturbedCreates(s: Scope, st: State, h: nat, drawn: SecretKey)
    requires Safe(s, st) && h in st.creators && st.creators[h] == Starting && st.record.None?
    ensures Steps(s, st, h, drawn, 4) ==
            State(Some(RecordOf(s, drawn)), st.secrets[SecretIdOf(s, drawn) := drawn], st.creators[h := Returned(IdentityOf(s, drawn))])
  {
    var id := SecretIdOf(s, drawn);
    var a := Put(st, h, Generated(drawn));
    var b := Put(a.(secrets := st.secrets[id := drawn]), h, SecretSealed(drawn));
    var c := Put(b, h, Confirmed(drawn));
    FirstStep(s, st, h, drawn, 4);
    assert Next(s, st, h, drawn) == a && Next(s, a, h, drawn) == b && Next(s, b, h, drawn) == c;
    FirstStep(s, a, h, drawn, 3);
    TwoSteps(s, b, h, drawn);
    assert st.creators[h := Generated(drawn)][h := SecretSealed(drawn)][h := Confirmed(drawn)][h := Returned(IdentityOf(s, drawn))]
           == st.creators[h := Returned(IdentityOf(s, drawn))];
  }

  /** In any store, trusted or not: a creator that has sealed its key commits a record only over a secret
      it can read back as written, and fails, leaving everything as it is, over any other. */
  lemma ReadsBackBeforeCommitting(s: Scope, st: State, h: nat, key: SecretKey, drawn: SecretKey)
    requires h in st.creators && st.creators[h] == SecretSealed(key)
    ensures Steps(s, st, h, drawn, 2) ==
            if !Stored(s, st, key) then Put(st, h, Failed)
            else if st.record.Some? then Put(st, h, LostRace(key))
            else Put(st.(record := Some(RecordOf(s, key))), h, Returned(IdentityOf(s, key)))
  {
    TwoSteps(s, st, h, drawn);
    PutAgain(st, h, Confirmed(key), LostRace(key));
    PutAgain(st.(record := Some(RecordOf(s, key))), h, Confirmed(key), Returned(IdentityOf(s, key)));
  }

  /** A creator that loses the race returns the winner's identity and takes its own unreferenced secret
      away with it, and no other. */
  lemma LoserCleansUp(s: Scope, st: State, h: nat, key: SecretKey, drawn: SecretKey)
    requires Safe(s, st) && h in st.creators && st.creators[h] == Confirmed(key) && st.record.Some? && st.record.value != RecordOf(s, key)
    ensures var after := Steps(s, st, h, drawn, 4);
            && after.record == st.record && after.secrets == st.secrets - {SecretIdOf(s, key)} && h in after.creators && after.creators[h].Returned?
            && st.record == Some(RecordOf(s, after.creators[h].identity.key))
  {
    hide Safe, Load;
    BackedLoads(s, st);
    var winner := Load(s, st.secrets, st.record.value).value;
    var a := Put(st, h, LostRace(key));
    var b := Put(a, h, LoadingWinner(key, st.record.value));
    var c := Put(b, h, Discarding(key, winner));
    FirstStep(s, st, h, drawn, 4);
    FirstStep(s, a, h, drawn, 3);
    assert Next(s, st, h, drawn) == a && Next(s, a, h, drawn) == b && Next(s, b, h, drawn) == c;
    TwoSteps(s, b, h, drawn);
  }
}
