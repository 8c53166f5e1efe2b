/** The attestation bundle builder and its rotator: token and keys behind one mutex, refreshed by a
    read, an unlocked fetch and a write. */
module KeyRotation {
  import opened Wrappers
  import opened Bytes

  // ---------------------------------------------------------------- tokens and keys

  /** The eat_nonce claim as JSON decodes it. */
  datatype Item = Text(text: string) | NotText

  datatype Claim = Array(items: seq<Item>) | Single(text: string) | Other

  /** A JWT: whether it has three parts, and the eat_nonce claim if its payload decodes. */
  datatype Token = Token(threeParts: bool, eatNonce: Option<Claim>)

  datatype EnclaveKeys = EnclaveKeys(signer: Data, bindingSpki: Data, hpkePriv: Data, hpkePub: Data)

  /** The key library: fingerprints, encodings, key pairs and signatures. */
  datatype Library = Library(
    fingerprint: Data -> string,
    encode: Data -> string,
    publicOf: Data -> Data,
    sign: (Data, Data) -> Data)

  /** Generated keys come as matching pairs. */
  predicate Matched(lib: Library, k: EnclaveKeys) {
    lib.publicOf(k.hpkePriv) == k.hpkePub && lib.publicOf(k.signer) == k.bindingSpki
  }

  /** The token's first two nonces are the fingerprint of the binding key and the HPKE key. */
  ghost predicate Binds(lib: Library, token: Token, bindingSpki: Data, hpkePub: Data) {
    && token.threeParts && token.eatNonce.Some? && token.eatNonce.value.Array?
    && (forall item <- token.eatNonce.value.items :: item.Text?)
    && |token.eatNonce.value.items| >= 2
    && token.eatNonce.value.items[0] == Text(lib.fingerprint(bindingSpki))
    && token.eatNonce.value.items[1] == Text(lib.encode(hpkePub))
  }

  ghost predicate BindsKeys(lib: Library, token: Token, k: EnclaveKeys) {
    Binds(lib, token, k.bindingSpki, k.hpkePub)
  }

  /** Coerces the claim to strings; an array with another kind of element is an error. */
  method ToStringSlice(v: Claim) returns (r: Option<seq<string>>)
    ensures v.Other? ==> r == None
    ensures v.Single? ==> r == Some([v.text])
    ensures v.Array? ==> (r.Some? <==> forall item <- v.items :: item.Text?)
    ensures v.Array? && r.Some? ==>
      |r.value| == |v.items| && forall i :: 0 <= i < |v.items| ==> v.items[i] == Text(r.value[i])
  {
    match v
    case Array(items) =>
      var out: seq<string> := [];
      for i := 0 to |items|
        invariant |out| == i
        invariant forall k :: 0 <= k < i ==> items[k] == Text(out[k])
      {
        if !items[i].Text? {
          assert items[i] in items;
          return None;
        }
        out := out + [items[i].text];
      }
      return Some(out);
    case Single(text) => return Some([text]);
    case Other => return None;
  }

  /** Accepts exactly the tokens that bind the keys; a single-string claim is too short to. */
  method VerifyEatNonce(lib: Library, token: Token, k: EnclaveKeys) returns (ok: bool)
    ensures ok <==> BindsKeys(lib, token, k)
  {
    if !token.threeParts || token.eatNonce.None? {
      return false;
    }
    var nonces := ToStringSlice(token.eatNonce.value);
    if nonces.None? || |nonces.value| < 2 {
      return false;
    }
    if nonces.value[0] != lib.fingerprint(k.bindingSpki) {
      return false;
    }
    return nonces.value[1] == lib.encode(k.hpkePub);
  }

  // ---------------------------------------------------------------- the builder

  datatype Bundle = Bundle(token: Token, bindingSpki: Data, hpkePub: Data, nonceSig: Data, issuedAt: int)

  /** What the mutex guards. */
  datatype Held = Held(keys: EnclaveKeys, token: Token, issuedAt: int)

  ghost predicate Sound(lib: Library, h: Held) {
    Matched(lib, h.keys) && BindsKeys(lib, h.token, h.keys)
  }

  /** A refresh run alone: the fetched token, if it came and binds the keys. */
  ghost function Refreshed(lib: Library, h: Held, fetched: Option<Token>, now: int): Held {
    if fetched.Some? && BindsKeys(lib, fetched.value, h.keys) then Held(h.keys, fetched.value, now) else h
  }

  /** A rotation run alone: new keys with a token that binds them, or no change at all. */
  ghost function Rotated(lib: Library, h: Held, newKeys: EnclaveKeys, fetched: Option<Token>, now: int): Held {
    if fetched.Some? && BindsKeys(lib, fetched.value, newKeys) then Held(newKeys, fetched.value, now) else h
  }

  /** What a state of the builder serves for a nonce. */
  function Served(lib: Library, h: Held, nonce: Data): Bundle {
    Bundle(h.token, h.keys.bindingSpki, h.keys.hpkePub, lib.sign(h.keys.signer, nonce), h.issuedAt)
  }

  class Builder {
    const lib: Library
    var keys: EnclaveKeys
    var token: Token
    var issuedAt: int

    ghost function Contents(): Held
      reads this
    {
      Held(keys, token, issuedAt)
    }

    ghost predicate Valid()
      reads this
    {
      Sound(lib, Contents())
    }

    constructor (lib: Library, keys: EnclaveKeys, token: Token, now: int)
      requires Matched(lib, keys) && BindsKeys(lib, token, keys)
      ensures Valid() && this.lib == lib && this.keys == keys && this.token == token && issuedAt == now
    {
      this.lib, this.keys, this.token, this.issuedAt := lib, keys, token, now;
    }

    /** Fresh keys and their token, unless the fetch fails or the token does not bind them. */
    static method NewBuilder(lib: Library, keys: EnclaveKeys, fetched: Option<Token>, now: int)
      returns (r: Option<Builder>)
      requires Matched(lib, keys)
      ensures r.Some? <==> fetched.Some? && BindsKeys(lib, fetched.value, keys)
      ensures r.Some? ==> fresh(r.value) && r.value.Valid() && r.value.lib == lib
      ensures r.Some? ==> r.value.keys == keys && r.value.token == fetched.value && r.value.issuedAt == now
    {
      if fetched.None? {
        return None;
      }
      var ok := VerifyEatNonce(lib, fetched.value, keys);
      if !ok {
        return None;
      }
      var b := new Builder(lib, keys, fetched.value, now);
      return Some(b);
    }

    /** A served bundle's token binds the very keys served with it. */
    method Build(nonce: Data) returns (bundle: Bundle)
      requires Valid()
      ensures bundle == Served(lib, Contents(), nonce)
      ensures bundle.token == token && bundle.issuedAt == issuedAt
      ensures bundle.bindingSpki == keys.bindingSpki && bundle.hpkePub == keys.hpkePub
      ensures Binds(lib, bundle.token, bundle.bindingSpki, bundle.hpkePub)
      ensures bundle.nonceSig == lib.sign(keys.signer, nonce) && lib.publicOf(keys.signer) == bundle.bindingSpki
    {
      var sig := lib.sign(keys.signer, nonce);
      bundle := Bundle(token, keys.bindingSpki, keys.hpkePub, sig, issuedAt);
    }

    method HPKEKeys() returns (priv: Data, pub: Data)
      requires Valid()
      ensures lib.publicOf(priv) == pub && priv == keys.hpkePriv && pub == keys.hpkePub
    {
      return keys.hpkePriv, keys.hpkePub;
    }

    method RefreshOIDC(fetched: Option<Token>, now: int) returns (ok: bool)
      requires Valid()
      modifies this
      ensures Valid() && Contents() == Refreshed(lib, old(Contents()), fetched, now)
      ensures ok <==> fetched.Some? && BindsKeys(lib, fetched.value, old(keys))
      ensures keys == old(keys)
      ensures if ok then token == fetched.value && issuedAt == now else token == old(token) && issuedAt == old(issuedAt)
    {
      var k := keys;
      if fetched.None? {
        return false;
      }
      ok := VerifyEatNonce(lib, fetched.value, k);
      if !ok {
        return;
      }
      token := fetched.value;
      issuedAt := now;
    }

    method FullRotate(k: EnclaveKeys, fetched: Option<Token>, now: int) returns (ok: bool)
      requires Valid() && Matched(lib, k)
      modifies this
      ensures Valid() && Contents() == Rotated(lib, old(Contents()), k, fetched, now)
      ensures ok <==> fetched.Some? && BindsKeys(lib, fetched.value, k)
      ensures
        if ok then keys == k && token == fetched.value && issuedAt == now
        else keys == old(keys) && token == old(token) && issuedAt == old(issuedAt)
    {
      if fetched.None? {
        return false;
      }
      ok := VerifyEatNonce(lib, fetched.value, k);
      if !ok {
        return;
      }
      keys := k;
      token := fetched.value;
      issuedAt := now;
    }
  }

  // ---------------------------------------------------------------- interleavings

  datatype Operation = Refresh | Rotate

  /** A rotator between its read (or key generation) and its write. */
  datatype Rotator =
    | Fetching(op: Operation, keys: EnclaveKeys)
    | Verified(op: Operation, keys: EnclaveKeys, token: Token)

  /** A served bundle and the nonce it answers. */
  datatype Answer = Answer(nonce: Data, bundle: Bundle)

  datatype State = State(
    held: Held,
    clock: int,
    rotators: map<nat, Rotator>,
    served: seq<Answer>,
    pairs: seq<(Data, Data)>)

  datatype Label =
    | BeginRefresh(t: nat)
    | BeginRotate(t: nat, newKeys: EnclaveKeys)
    | FetchFails(t: nat)
    | FetchReturns(t: nat, token: Token)
    | Commit(t: nat)
    | Build(nonce: Data)
    | ReadHpke
    | Advance(seconds: nat)

  ghost function Apply(lib: Library, s: State, l: Label): State {
    match l
    case BeginRefresh(t) =>
      if t in s.rotators then s else s.(rotators := s.rotators[t := Fetching(Refresh, s.held.keys)])
    case BeginRotate(t, k) =>
      if t in s.rotators || !Matched(lib, k) then s else s.(rotators := s.rotators[t := Fetching(Rotate, k)])
    case FetchFails(t) =>
      if t in s.rotators && s.rotators[t].Fetching? then s.(rotators := s.rotators - {t}) else s
    case FetchReturns(t, token) =>
      if !(t in s.rotators && s.rotators[t].Fetching?) then s
      else if BindsKeys(lib, token, s.rotators[t].keys) then
        s.(rotators := s.rotators[t := Verified(s.rotators[t].op, s.rotators[t].keys, token)])
      else s.(rotators := s.rotators - {t})
    case Commit(t) =>
      if t in s.rotators && s.rotators[t].Verified? then
        s.(held := Committed(s.held, s.rotators[t], s.clock), rotators := s.rotators - {t})
      else s
    case Build(nonce) =>
      s.(served := s.served + [Answer(nonce, Served(lib, s.held, nonce))])
    case ReadHpke => s.(pairs := s.pairs + [(s.held.keys.hpkePriv, s.held.keys.hpkePub)])
    case Advance(seconds) => s.(clock := s.clock + seconds)
  }

  /** A refresh writes the token only; a rotation writes keys and token. */
  function Committed(h: Held, r: Rotator, now: int): Held
    requires r.Verified?
  {
    if r.op.Refresh? then Held(h.keys, r.token, now) else Held(r.keys, r.token, now)
  }

  ghost function Exec(lib: Library, init: State, steps: seq<Label>): State {
    if steps == [] then init else Apply(lib, Exec(lib, init, steps[..|steps| - 1]), steps[|steps| - 1])
  }

  function Thread(l: Label): Option<nat> {
    match l
    case BeginRefresh(t) => Some(t)
    case BeginRotate(t, _) => Some(t)
    case FetchFails(t) => Some(t)
    case FetchReturns(t, _) => Some(t)
    case Commit(t) => Some(t)
    case _ => None
  }

  /** Every rotator step of the run is one thread's, as the select loop makes it. */
  ghost predicate SoleRotator(steps: seq<Label>, t: nat) {
    forall l <- steps :: Thread(l).Some? ==> Thread(l).value == t
  }

  /** The bundle's token binds its own keys, and their signer has signed the nonce it answers. */
  ghost predicate Attests(lib: Library, a: Answer) {
    && Binds(lib, a.bundle.token, a.bundle.bindingSpki, a.bundle.hpkePub)
    && exists signer :: lib.publicOf(signer) == a.bundle.bindingSpki && a.bundle.nonceSig == lib.sign(signer, a.nonce)
  }

  ghost predicate Kept(lib: Library, s: State, t: nat) {
    && Sound(lib, s.held)
    && s.rotators.Keys <= {t}
    && (t in s.rotators ==>
          && (s.rotators[t].op.Refresh? ==> s.rotators[t].keys == s.held.keys)
          && Matched(lib, s.rotators[t].keys)
          && (s.rotators[t].Verified? ==> BindsKeys(lib, s.rotators[t].token, s.rotators[t].keys)))
    && (forall a <- s.served :: Attests(lib, a))
    && (forall p <- s.pairs :: lib.publicOf(p.0) == p.1)
  }

  lemma KeptInStep(lib: Library, s: State, l: Label, t: nat)
    requires Kept(lib, s, t) && (Thread(l).Some? ==> Thread(l).value == t)
    ensures Kept(lib, Apply(lib, s, l), t)
  {
  }

  /** A builder as NewBuilder leaves it. */
  ghost predicate Fresh(lib: Library, init: State) {
    Sound(lib, init.held) && init.rotators == map[] && init.served == [] && init.pairs == []
  }

  /** With one rotator, in every interleaving with any number of readers and failing fetches, each
      served bundle's token binds the keys of that bundle and its signature is by them over the nonce
      asked for, each HPKE pair read is matched, and the builder stays sound. */
  lemma {:induction false} EveryBundleBound(lib: Library, init: State, steps: seq<Label>, t: nat)
    requires Fresh(lib, init) && SoleRotator(steps, t)
    ensures
      var s := Exec(lib, init, steps);
      && Kept(lib, s, t)
      && (forall a <- s.served :: Attests(lib, a))
      && (forall p <- s.pairs :: lib.publicOf(p.0) == p.1)
  {
    if steps != [] {
      EveryBundleBound(lib, init, steps[..|steps| - 1], t);
      KeptInStep(lib, Exec(lib, init, steps[..|steps| - 1]), steps[|steps| - 1], t);
    }
  }

  /** Whoever else ran, a refresh leaves the builder bound exactly if the keys it read have the
      fingerprints of the keys held when it writes. */
  lemma RefreshBoundIff(lib: Library, s: State, t: nat)
    requires t in s.rotators && s.rotators[t].Verified? && s.rotators[t].op.Refresh?
    requires BindsKeys(lib, s.rotators[t].token, s.rotators[t].keys)
    ensures
      var read, held := s.rotators[t].keys, s.held.keys;
      var h := Apply(lib, s, Commit(t)).held;
      BindsKeys(lib, h.token, h.keys) <==>
        && lib.fingerprint(read.bindingSpki) == lib.fingerprint(held.bindingSpki)
        && lib.encode(read.hpkePub) == lib.encode(held.hpkePub)
  {
  }

  function HonestToken(lib: Library, k: EnclaveKeys): Token {
    Token(true, Some(Array([Text(lib.fingerprint(k.bindingSpki)), Text(lib.encode(k.hpkePub))])))
  }

  lemma HonestTokenBinds(lib: Library, k: EnclaveKeys)
    ensures BindsKeys(lib, HonestToken(lib, k), k)
  {
    var items := HonestToken(lib, k).eatNonce.value.items;
    assert forall item <- items :: item == items[0] || item == items[1];
  }

  lemma ExecSnoc(lib: Library, init: State, steps: seq<Label>, l: Label)
    ensures Exec(lib, init, steps + [l]) == Apply(lib, Exec(lib, init, steps), l)
  {
    assert (steps + [l])[..|steps|] == steps;
  }

  /** A refresh of thread 1 and a rotation of thread 2, both past their fetch. */
  function BothFetch(lib: Library, held: EnclaveKeys, k: EnclaveKeys): seq<Label> {
    [BeginRefresh(1), FetchReturns(1, HonestToken(lib, held)), BeginRotate(2, k), FetchReturns(2, HonestToken(lib, k))]
  }

  lemma ExecFour(lib: Library, init: State, a: Label, b: Label, c: Label, d: Label)
    ensures Exec(lib, init, [a, b, c, d]) == Apply(lib, Apply(lib, Apply(lib, Apply(lib, init, a), b), c), d)
  {
    assert Exec(lib, init, []) == init;
    ExecSnoc(lib, init, [], a);
    ExecSnoc(lib, init, [a], b);
    ExecSnoc(lib, init, [a, b], c);
    ExecSnoc(lib, init, [a, b, c], d);
    assert [] + [a] == [a] && [a] + [b] == [a, b] && [a, b] + [c] == [a, b, c] && [a, b, c] + [d] == [a, b, c, d];
  }

  lemma BothVerified(lib: Library, init: State, k: EnclaveKeys)
    requires Fresh(lib, init) && Matched(lib, k)
    ensures
      var s := Exec(lib, init, BothFetch(lib, init.held.keys, k));
      var (stale, token) := (HonestToken(lib, init.held.keys), HonestToken(lib, k));
      s == init.(rotators := map[1 := Verified(Refresh, init.held.keys, stale), 2 := Verified(Rotate, k, token)])
  {
    HonestTokenBinds(lib, init.held.keys);
    HonestTokenBinds(lib, k);
    var run := BothFetch(lib, init.held.keys, k);
    ExecFour(lib, init, run[0], run[1], run[2], run[3]);
    var s2 := Apply(lib, Apply(lib, init, run[0]), run[1]);
    assert s2 == init.(rotators := map[1 := Verified(Refresh, init.held.keys, HonestToken(lib, init.held.keys))]);
  }

  /** Two overlapping rotators: a refresh that read the old keys writes their token after a rotation
      has put in new ones, and the next bundle does not bind. */
  lemma OverlappingRotatorsBreakBinding(lib: Library, init: State, k: EnclaveKeys, nonce: Data)
    requires Fresh(lib, init) && Matched(lib, k)
    requires lib.fingerprint(k.bindingSpki) != lib.fingerprint(init.held.keys.bindingSpki)
    ensures
      var s := Exec(lib, init, BothFetch(lib, init.held.keys, k) + [Commit(2)] + [Commit(1)] + [Build(nonce)]);
      && |s.served| == 1
      && var bundle := s.served[0].bundle;
      !Binds(lib, bundle.token, bundle.bindingSpki, bundle.hpkePub)
  {
    var run := BothFetch(lib, init.held.keys, k);
    BothVerified(lib, init, k);
    ExecSnoc(lib, init, run, Commit(2));
    ExecSnoc(lib, init, run + [Commit(2)], Commit(1));
    ExecSnoc(lib, init, run + [Commit(2)] + [Commit(1)], Build(nonce));
    assert Exec(lib, init, run + [Commit(2)] + [Commit(1)]).held.keys == k;
  }

  /** A refresh with no other rotator under way is the sequential one. */
  lemma SoloRefresh(lib: Library, s: State, t: nat, fetched: Option<Token>)
    requires s.rotators == map[]
    ensures
      var s1 := Apply(lib, s, BeginRefresh(t));
      var s2 := Apply(lib, s1, if fetched.Some? then FetchReturns(t, fetched.value) else FetchFails(t));
      var s3 := Apply(lib, s2, Commit(t));
      s3 == s.(held := Refreshed(lib, s.held, fetched, s.clock))
  {
    assert map[t := Fetching(Refresh, s.held.keys)] - {t} == map[];
  }

  lemma SoloRotate(lib: Library, s: State, t: nat, k: EnclaveKeys, fetched: Option<Token>)
    requires s.rotators == map[] && Matched(lib, k)
    ensures
      var s1 := Apply(lib, s, BeginRotate(t, k));
      var s2 := Apply(lib, s1, if fetched.Some? then FetchReturns(t, fetched.value) else FetchFails(t));
      var s3 := Apply(lib, s2, Commit(t));
      s3 == s.(held := Rotated(lib, s.held, k, fetched, s.clock))
  {
    assert map[t := Fetching(Rotate, k)] - {t} == map[];
  }

  // ---------------------------------------------------------------- the rotator's loop

  /** What a tick of the select loop brings. */
  datatype Event =
    | FullTick(newKeys: EnclaveKeys, fetched: Option<Token>, at: int)
    | OidcTick(fetched: Option<Token>, at: int)

  ghost function AfterEvents(lib: Library, h: Held, events: seq<Event>): Held {
    if events == [] then h
    else
      var before := AfterEvents(lib, h, events[..|events| - 1]);
      match events[|events| - 1]
      case FullTick(k, fetched, now) => Rotated(lib, before, k, fetched, now)
      case OidcTick(fetched, now) => Refreshed(lib, before, fetched, now)
  }

  /** What an event's fetch brought binds the keys it was fetched for: its own new ones, or these. */
  ghost predicate Effective(lib: Library, e: Event, keys: EnclaveKeys) {
    e.fetched.Some? && BindsKeys(lib, e.fetched.value, if e.FullTick? then e.newKeys else keys)
  }

  /** Event i is the last effective full tick. */
  ghost predicate LastRotation(lib: Library, events: seq<Event>, i: nat, keys: EnclaveKeys) {
    && i < |events| && events[i].FullTick? && Effective(lib, events[i], keys)
    && forall j :: i < j < |events| && events[j].FullTick? ==> !Effective(lib, events[j], keys)
  }

  /** Event i is the last one effective for these keys. */
  ghost predicate LastEffect(lib: Library, events: seq<Event>, i: nat, keys: EnclaveKeys) {
    && i < |events| && Effective(lib, events[i], keys)
    && forall j :: i < j < |events| ==> !Effective(lib, events[j], keys)
  }

  /** The keys held are those of the last full tick whose token bound its keys, or the first ones. */
  lemma {:induction false} KeysAfterEvents(lib: Library, h: Held, events: seq<Event>)
    ensures
      var keys := AfterEvents(lib, h, events).keys;
      if exists i: nat :: LastRotation(lib, events, i, keys) then
        forall i: nat :: LastRotation(lib, events, i, keys) ==> keys == events[i].newKeys
      else keys == h.keys
  {
    if events != [] {
      var (init, last) := (events[..|events| - 1], |events| - 1);
      var (before, keys) := (AfterEvents(lib, h, init).keys, AfterEvents(lib, h, events).keys);
      KeysAfterEvents(lib, h, init);
      if events[last].FullTick? && Effective(lib, events[last], keys) {
        assert LastRotation(lib, events, last, keys);
      } else {
        assert keys == before;
        assert forall i: nat :: LastRotation(lib, events, i, keys) <==> LastRotation(lib, init, i, keys);
      }
    }
  }

  /** Token and issue time are those of the last event whose token bound the keys held, or the first
      ones. */
  lemma {:induction false} TokenAfterEvents(lib: Library, h: Held, events: seq<Event>)
    ensures
      var held := AfterEvents(lib, h, events);
      if exists i: nat :: LastEffect(lib, events, i, held.keys) then
        forall i: nat :: LastEffect(lib, events, i, held.keys) ==>
          held.token == events[i].fetched.value && held.issuedAt == events[i].at
      else held == h
  {
    if events != [] {
      var (init, last) := (events[..|events| - 1], |events| - 1);
      var (before, held) := (AfterEvents(lib, h, init), AfterEvents(lib, h, events));
      TokenAfterEvents(lib, h, init);
      if Effective(lib, events[last], held.keys) {
        assert LastEffect(lib, events, last, held.keys);
      } else {
        assert held == before;
        assert forall i: nat :: LastEffect(lib, events, i, held.keys) <==> LastEffect(lib, init, i, held.keys);
      }
    }
  }

  /** The loop up to cancellation: one operation after the other, errors skipped. */
  method Start(b: Builder, events: seq<Event>)
    requires b.Valid() && forall e <- events :: e.FullTick? ==> Matched(b.lib, e.newKeys)
    modifies b
    ensures b.Valid() && b.Contents() == AfterEvents(b.lib, old(b.Contents()), events)
  {
    for i := 0 to |events|
      invariant b.Valid() && b.Contents() == AfterEvents(b.lib, old(b.Contents()), events[..i])
    {
      assert events[..i + 1][..i] == events[..i];
      match events[i]
      case FullTick(k, fetched, now) =>
        assert events[i] in events;
        var _ := b.FullRotate(k, fetched, now);
      case OidcTick(fetched, now) =>
        var _ := b.RefreshOIDC(fetched, now);
    }
    assert events[..|events|] == events;
  }
}
