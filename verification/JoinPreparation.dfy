/** `prepare_join` under concurrency, crashes and a join: three secrets, each loaded or created and
    then never changed, and one prepared request that names their public halves. */
module JoinPreparation {
  import opened Prelude
  import opened Credentials

  // The three secret labels; a secret is named by its public half.
  datatype Label = SigningSecret | EncryptionSecret | EndpointSecret

  /** The public keys a prepared request names, and its nonce. */
  datatype Request = Request(signing: nat, encryption: nat, endpoint: nat, nonce: nat)

  datatype Preparer =
    | Beginning
    | CheckedHead
    | Opening(which: Label, loaded: map<Label, nat>)
    | Drawing(which: Label, loaded: map<Label, nat>, secret: nat)
    | Reopening(which: Label, loaded: map<Label, nat>)
    | Composed(request: Request)
    | Beaten
    | Done(request: Request)
    | Refused

  datatype State = State(joined: bool, prepared: Option<Request>, secrets: map<Label, nat>, preparers: map<nat, Preparer>)

  /** `Advance` draws `random` where a preparer needs a new secret or nonce. */
  datatype Event = Arrive(h: nat) | Advance(h: nat, random: nat) | Crash(h: nat) | Join

  function Put(st: State, h: nat, p: Preparer): State {
    st.(preparers := st.preparers[h := p])
  }

  /** With this label done, on to the next, or to composing the request. */
  function Proceed(which: Label, loaded: map<Label, nat>, random: nat): Preparer {
    match which
    case SigningSecret => Opening(EncryptionSecret, loaded)
    case EncryptionSecret => Opening(EndpointSecret, loaded)
    case EndpointSecret =>
      if SigningSecret in loaded && EncryptionSecret in loaded && EndpointSecret in loaded then
        Composed(Request(loaded[SigningSecret], loaded[EncryptionSecret], loaded[EndpointSecret], random))
      else Refused
  }

  function Next(st: State, h: nat, random: nat): State
    requires h in st.preparers
  {
    match st.preparers[h]
    case Beginning => Put(st, h, if st.joined then Refused else CheckedHead)
    case CheckedHead => Put(st, h, if st.prepared.Some? then Done(st.prepared.value) else Opening(SigningSecret, map[]))
    case Opening(which, loaded) =>
      if which in st.secrets then Put(st, h, Proceed(which, loaded[which := st.secrets[which]], random))
      else Put(st, h, Drawing(which, loaded, random))
    case Drawing(which, loaded, secret) =>
      // sealing refuses different bytes under a label that is taken
      if which in st.secrets && st.secrets[which] != secret then Put(st, h, Reopening(which, loaded))
      else Put(st.(secrets := st.secrets[which := secret]), h, Proceed(which, loaded[which := secret], random))
    case Reopening(which, loaded) =>
      Put(st, h, if which in st.secrets then Proceed(which, loaded[which := st.secrets[which]], random) else Refused)
    case Composed(request) =>
      if st.prepared.None? then Put(st.(prepared := Some(request)), h, Done(request)) else Put(st, h, Beaten)
    case Beaten => Put(st, h, if st.prepared.Some? then Done(st.prepared.value) else Refused)
    case _ => st
  }

  /** A join consumes the prepared request and writes the configuration head. */
  function Happen(st: State, e: Event): State {
    match e
    case Arrive(h) => if h in st.preparers then st else Put(st, h, Beginning)
    case Advance(h, random) => if h in st.preparers then Next(st, h, random) else st
    case Crash(h) => st.(preparers := st.preparers - {h})
    case Join => if st.prepared.Some? && !st.joined then st.(joined := true, prepared := None) else st
  }

  function Unfold(st: State, events: seq<Event>): State {
    if events == [] then st else Happen(Unfold(st, events[..|events| - 1]), events[|events| - 1])
  }

  // ---- the invariant ----

  /** The request names the public halves of exactly the stored secrets. */
  predicate Names(secrets: map<Label, nat>, r: Request) {
    && SigningSecret in secrets && secrets[SigningSecret] == r.signing
    && EncryptionSecret in secrets && secrets[EncryptionSecret] == r.encryption
    && EndpointSecret in secrets && secrets[EndpointSecret] == r.endpoint
  }

  predicate Agrees(secrets: map<Label, nat>, loaded: map<Label, nat>) {
    forall l :: l in loaded ==> l in secrets && secrets[l] == loaded[l]
  }

  predicate PreparerOk(st: State, p: Preparer) {
    match p
    case Opening(_, loaded) => Agrees(st.secrets, loaded)
    case Drawing(_, loaded, _) => Agrees(st.secrets, loaded)
    case Reopening(_, loaded) => Agrees(st.secrets, loaded)
    case Composed(r) => Names(st.secrets, r)
    case Done(r) => Names(st.secrets, r) && (!st.joined ==> st.prepared == Some(r))
    case _ => true
  }

  ghost predicate Safe(st: State) {
    && (st.prepared.Some? ==> Names(st.secrets, st.prepared.value))
    && (forall h :: h in st.preparers ==> PreparerOk(st, st.preparers[h]))
  }

  /** Secrets are only added; a prepared request goes only with a join. */
  predicate Keeps(a: State, b: State) {
    && Agrees(b.secrets, a.secrets) && (a.joined ==> b.joined)
    && (a.prepared.Some? ==> b.prepared == a.prepared || b.joined)
  }

  lemma PreparerStays(a: State, b: State, p: Preparer)
    requires PreparerOk(a, p) && Keeps(a, b)
    ensures PreparerOk(b, p)
  {
  }

  lemma NextIsSafe(st: State, h: nat, random: nat)
    requires Safe(st) && h in st.preparers
    ensures Keeps(st, Next(st, h, random)) && Safe(Next(st, h, random))
  {
    hide Safe, Proceed, Names;
    var t := Next(st, h, random);
    SafeHere(st, h);
    match st.preparers[h] {
    case Opening(which, loaded) =>
      if which in st.secrets {
        ProceedOk(t, which, loaded[which := st.secrets[which]], random);
      }
    case Drawing(which, loaded, secret) =>
      if t.preparers[h] != Reopening(which, loaded) {
        ProceedOk(t, which, loaded[which := secret], random);
      }
    case Reopening(which, loaded) =>
      if which in st.secrets {
        ProceedOk(t, which, loaded[which := st.secrets[which]], random);
      }
    case _ =>
    }
    KeepsNames(st, t);
    StaysSafe(st, t, h);
  }

  lemma ProceedOk(st: State, which: Label, loaded: map<Label, nat>, random: nat)
    requires Agrees(st.secrets, loaded)
    ensures PreparerOk(st, Proceed(which, loaded, random))
  {
  }

  lemma KeepsNames(a: State, b: State)
    requires Keeps(a, b)
    ensures forall r :: Names(a.secrets, r) ==> Names(b.secrets, r)
  {
  }

  lemma SafeHere(st: State, h: nat)
    requires Safe(st) && h in st.preparers
    ensures PreparerOk(st, st.preparers[h]) && (st.prepared.Some? ==> Names(st.secrets, st.prepared.value))
  {
    hide PreparerOk;
  }

  lemma StaysSafe(a: State, b: State, h: nat)
    requires Safe(a) && Keeps(a, b) && (b.prepared.Some? ==> Names(b.secrets, b.prepared.value))
    requires forall g :: g in b.preparers && g != h ==> g in a.preparers && b.preparers[g] == a.preparers[g]
    requires h in b.preparers ==> PreparerOk(b, b.preparers[h])
    ensures Safe(b)
  {
    hide PreparerOk, Names, Keeps;
    forall g | g in b.preparers && g != h
      ensures PreparerOk(b, b.preparers[g])
    {
      PreparerStays(a, b, a.preparers[g]);
    }
  }

  lemma HappenIsSafe(st: State, e: Event)
    requires Safe(st)
    ensures Keeps(st, Happen(st, e)) && Safe(Happen(st, e))
  {
    hide Next;
    if e.Advance? && e.h in st.preparers {
      NextIsSafe(st, e.h, e.random);
    } else if e.Join? {
      StaysSafe(st, Happen(st, e), 0);
    }
  }

  lemma KeepsTransitive(a: State, b: State, c: State)
    requires Keeps(a, b) && Keeps(b, c)
    ensures Keeps(a, c)
  {
  }

  lemma {:induction false} AlwaysSafe(st: State, events: seq<Event>)
    requires Safe(st)
    ensures Safe(Unfold(st, events)) && Keeps(st, Unfold(st, events))
  {
    hide Safe, Happen;
    if events != [] {
      var before := Unfold(st, events[..|events| - 1]);
      AlwaysSafe(st, events[..|events| - 1]);
      HappenIsSafe(before, events[|events| - 1]);
      KeepsTransitive(st, before, Unfold(st, events));
    }
  }

  lemma {:induction false} UnfoldSplit(st: State, a: seq<Event>, b: seq<Event>)
    ensures Unfold(st, a + b) == Unfold(Unfold(st, a), b)
  {
    hide Happen;
    if b == [] {
      assert a + b == a;
    } else {
      UnfoldSplit(st, a, b[..|b| - 1]);
      assert (a + b)[..|a + b| - 1] == a + b[..|b| - 1];
    }
  }

  /** Secrets may be left from earlier attempts; nobody is at work yet. */
  predicate Idle(st: State) {
    st.prepared.None? && st.preparers == map[]
  }

  /** At every moment of every schedule a stored prepared request, and every request ever returned,
      names exactly the stored secrets. */
  lemma RequestsMatchSecrets(st: State, events: seq<Event>, more: seq<Event>, h: nat)
    requires Idle(st)
    ensures var a, b := Unfold(st, events), Unfold(st, events + more);
            && (b.prepared.Some? ==> Names(b.secrets, b.prepared.value))
            && (h in a.preparers && a.preparers[h].Done? ==> Names(b.secrets, a.preparers[h].request))
  {
    hide Unfold;
    var a, b := Unfold(st, events), Unfold(st, events + more);
    AlwaysSafe(st, events);
    UnfoldSplit(st, events, more);
    AlwaysSafe(a, more);
    if h in a.preparers && a.preparers[h].Done? {
      assert PreparerOk(a, a.preparers[h]);
    }
  }

  /** All preparers that return name the same three keys; before a join they return the same
      request, nonce included. */
  lemma OneRequest(st: State, events: seq<Event>, more: seq<Event>, g: nat, h: nat)
    requires Idle(st)
    ensures var a, b := Unfold(st, events), Unfold(st, events + more);
            g in a.preparers && a.preparers[g].Done? && h in b.preparers && b.preparers[h].Done? ==>
              var p, q := a.preparers[g].request, b.preparers[h].request;
              p.signing == q.signing && p.encryption == q.encryption && p.endpoint == q.endpoint && (!b.joined ==> p == q)
  {
    hide Unfold;
    var a, b := Unfold(st, events), Unfold(st, events + more);
    AlwaysSafe(st, events);
    AlwaysSafe(st, events + more);
    UnfoldSplit(st, events, more);
    AlwaysSafe(a, more);
    if g in a.preparers && a.preparers[g].Done? && h in b.preparers && b.preparers[h].Done? {
      assert PreparerOk(a, a.preparers[g]) && PreparerOk(b, b.preparers[h]);
      assert Keeps(a, b);
    }
  }

  // ---- what one preparer comes to ----

  function Steps(st: State, h: nat, randoms: seq<nat>): State {
    if randoms == [] then st
    else
      var before := Steps(st, h, randoms[..|randoms| - 1]);
      if h in before.preparers then Next(before, h, randoms[|randoms| - 1]) else before
  }

  /** After a join nobody prepares again: a preparer that begins then is refused and changes nothing. */
  lemma JoinedRefuses(st: State, h: nat, random: nat)
    requires h in st.preparers && st.preparers[h] == Beginning && st.joined
    ensures Next(st, h, random) == st.(preparers := st.preparers[h := Refused])
  {
  }

  /** A request that is prepared already is returned as it is. */
  lemma PreparedResumes(st: State, h: nat, a: nat, b: nat)
    requires h in st.preparers && st.preparers[h] == Beginning && !st.joined && st.prepared.Some?
    ensures Steps(st, h, [a] + [b]) == st.(preparers := st.preparers[h := Done(st.prepared.value)])
  {
    StepsSplit(st, h, [a], [b]);
    OneStep(st, h, a);
    OneStep(Next(st, h, a), h, b);
    PutTwice(st, h, CheckedHead, Done(st.prepared.value));
  }

  /** The secret under a label: the stored one, or the one drawn now. */
  function Kept(st: State, l: Label, drawn: nat): nat {
    if l in st.secrets then st.secrets[l] else drawn
  }

  lemma {:induction false} StepsSplit(st: State, h: nat, a: seq<nat>, b: seq<nat>)
    ensures Steps(st, h, a + b) == Steps(Steps(st, h, a), h, b)
    decreases |b|
  {
    hide Next;
    if b == [] {
      assert a + b == a;
    } else {
      StepsSplit(st, h, a, b[..|b| - 1]);
      assert (a + b)[..|a + b| - 1] == a + b[..|b| - 1];
    }
  }

  lemma OneStep(st: State, h: nat, a: nat)
    requires h in st.preparers
    ensures Steps(st, h, [a]) == Next(st, h, a)
  {
    assert [a][..0] == [];
  }

  /** One label, undisturbed: an existing secret is loaded, a missing one is drawn and sealed. */
  lemma LabelDone(st: State, h: nat, which: Label, loaded: map<Label, nat>, drawn: nat, random: nat) returns (randoms: seq<nat>)
    requires h in st.preparers && st.preparers[h] == Opening(which, loaded)
    ensures var value := Kept(st, which, drawn);
            Steps(st, h, randoms) == Put(st.(secrets := st.secrets[which := value]), h, Proceed(which, loaded[which := value], random))
  {
    var value := Kept(st, which, drawn);
    if which in st.secrets {
      randoms := [random];
      OneStep(st, h, random);
      assert st.secrets[which := st.secrets[which]] == st.secrets;
    } else {
      randoms := [drawn] + [random];
      StepsSplit(st, h, [drawn], [random]);
      OneStep(st, h, drawn);
      OneStep(Next(st, h, drawn), h, random);
      assert st.preparers[h := Drawing(which, loaded, drawn)][h := Proceed(which, loaded[which := value], random)]
             == st.preparers[h := Proceed(which, loaded[which := value], random)];
    }
  }

  /** The first two labels. */
  lemma GathersTwo(st: State, h: nat, signing: nat, encryption: nat) returns (randoms: seq<nat>)
    requires h in st.preparers && st.preparers[h] == Opening(SigningSecret, map[])
    ensures var a, b := Kept(st, SigningSecret, signing), Kept(st, EncryptionSecret, encryption);
            Steps(st, h, randoms) == Put(st.(secrets := st.secrets[SigningSecret := a][EncryptionSecret := b]), h,
                                         Opening(EndpointSecret, map[SigningSecret := a, EncryptionSecret := b]))
  {
    hide Steps, Next;
    var a, b := Kept(st, SigningSecret, signing), Kept(st, EncryptionSecret, encryption);
    var first := LabelDone(st, h, SigningSecret, map[], signing, 0);
    var mid := Put(st.(secrets := st.secrets[SigningSecret := a]), h, Opening(EncryptionSecret, map[SigningSecret := a]));
    var second := LabelDone(mid, h, EncryptionSecret, map[SigningSecret := a], encryption, 0);
    assert map[SigningSecret := a][EncryptionSecret := b] == map[SigningSecret := a, EncryptionSecret := b];
    PutTwice(st.(secrets := st.secrets[SigningSecret := a][EncryptionSecret := b]), h, mid.preparers[h],
             Opening(EndpointSecret, map[SigningSecret := a, EncryptionSecret := b]));
    StepsSplit(st, h, first, second);
    randoms := first + second;
  }

  /** All three, and the request that names them. */
  lemma Gathers(st: State, h: nat, signing: nat, encryption: nat, endpoint: nat, nonce: nat) returns (randoms: seq<nat>)
    requires h in st.preparers && st.preparers[h] == Opening(SigningSecret, map[])
    ensures var a, b, c := Kept(st, SigningSecret, signing), Kept(st, EncryptionSecret, encryption), Kept(st, EndpointSecret, endpoint);
            Steps(st, h, randoms) ==
            Put(st.(secrets := st.secrets[SigningSecret := a][EncryptionSecret := b][EndpointSecret := c]), h, Composed(Request(a, b, c, nonce)))
  {
    hide Steps, Next;
    var a, b, c := Kept(st, SigningSecret, signing), Kept(st, EncryptionSecret, encryption), Kept(st, EndpointSecret, endpoint);
    var loaded := map[SigningSecret := a, EncryptionSecret := b];
    var two := GathersTwo(st, h, signing, encryption);
    var mid := Put(st.(secrets := st.secrets[SigningSecret := a][EncryptionSecret := b]), h, Opening(EndpointSecret, loaded));
    var third := LabelDone(mid, h, EndpointSecret, loaded, endpoint, nonce);
    PutTwice(st.(secrets := st.secrets[SigningSecret := a][EncryptionSecret := b][EndpointSecret := c]), h, mid.preparers[h], Composed(Request(a, b, c, nonce)));
    StepsSplit(st, h, two, third);
    randoms := two + third;
  }

  /** An undisturbed preparer that finds nothing prepared keeps every secret there is, draws the missing
      ones, and commits and returns the request that names all three. */
  lemma UndisturbedPrepares(st: State, h: nat, signing: nat, encryption: nat, endpoint: nat, nonce: nat) returns (randoms: seq<nat>)
    requires h in st.preparers && st.preparers[h] == Beginning && !st.joined && st.prepared.None?
    ensures var a, b, c := Kept(st, SigningSecret, signing), Kept(st, EncryptionSecret, encryption), Kept(st, EndpointSecret, endpoint);
            Steps(st, h, randoms) ==
            State(false, Some(Request(a, b, c, nonce)), st.secrets[SigningSecret := a][EncryptionSecret := b][EndpointSecret := c],
                  st.preparers[h := Done(Request(a, b, c, nonce))])
  {
    hide Steps;
    var a, b, c := Kept(st, SigningSecret, signing), Kept(st, EncryptionSecret, encryption), Kept(st, EndpointSecret, endpoint);
    OneStep(st, h, 0);
    OneStep(Next(st, h, 0), h, 0);
    StepsSplit(st, h, [0], [0]);
    var begun := Put(st, h, Opening(SigningSecret, map[]));
    PutTwice(st, h, CheckedHead, Opening(SigningSecret, map[]));
    var three := Gathers(begun, h, signing, encryption, endpoint, nonce);
    var all, request := st.secrets[SigningSecret := a][EncryptionSecret := b][EndpointSecret := c], Request(a, b, c, nonce);
    PutTwice(st.(secrets := all), h, begun.preparers[h], Composed(request));
    var composed := Put(st.(secrets := all), h, Composed(request));
    OneStep(composed, h, 0);
    PutTwice(st.(secrets := all, prepared := Some(request)), h, Composed(request), Done(request));
    StepsSplit(st, h, [0] + [0], three);
    StepsSplit(st, h, [0] + [0] + three, [0]);
    randoms := [0] + [0] + three + [0];
  }

  lemma PutTwice(st: State, h: nat, p: Preparer, q: Preparer)
    ensures Put(Put(st, h, p), h, q) == Put(st, h, q)
  {
    assert st.preparers[h := p][h := q] == st.preparers[h := q];
  }

  /** A preparer that is beaten to the commit returns the request that won. */
  lemma BeatenReturnsWinner(st: State, h: nat, request: Request, a: nat, b: nat)
    requires h in st.preparers && st.preparers[h] == Composed(request) && st.prepared.Some?
    ensures Steps(st, h, [a] + [b]) == st.(preparers := st.preparers[h := Done(st.prepared.value)])
  {
    StepsSplit(st, h, [a], [b]);
    OneStep(st, h, a);
    OneStep(Next(st, h, a), h, b);
    PutTwice(st, h, Beaten, Done(st.prepared.value));
  }
}
