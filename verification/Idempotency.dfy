/**
 The idempotency protocol every guided mutation follows, for any business state and any mutation body: begin the
 record, run the body, complete the record, all in one transaction.
 */
module Idempotency {
  import opened Base
  import Text

  /** The unique index: user, operation and key. */
  datatype Identity = Identity(user: Id, operation: string, key: string)

  datatype Stored<P, R> = Stored(payload: P, response: R)

  /** The business state, the records, and the history of mutations whose body committed under a key. */
  datatype House<S, P, R> = House(state: S, records: map<Identity, Stored<P, R>>, history: seq<Identity>)

  /** A request; `body` is the mutation, None when it fails or only previews. Native requests carry no key. */
  datatype Request<!S, P, R> = Request(user: Id, operation: string, header: string, payload: P, keyed: bool,
      body: S -> Option<(S, R)>)

  datatype Reply<R> = Done(response: R) | Replayed(response: R) | Conflict | KeyRequired | RolledBack

  predicate KeyChar(c: char) {
    'A' <= c <= 'Z' || 'a' <= c <= 'z' || '0' <= c <= '9' || c == '.' || c == '_' || c == ':' || c == '-'
  }

  /** ^[A-Za-z0-9][A-Za-z0-9._:-]{7,127}$ */
  predicate ValidKey(key: string) {
    && 8 <= |key| <= 128
    && ('A' <= key[0] <= 'Z' || 'a' <= key[0] <= 'z' || '0' <= key[0] <= '9')
    && forall i :: 1 <= i < |key| ==> KeyChar(key[i])
  }

  function IdentityOf<S, P, R>(q: Request<S, P, R>): Identity {
    Identity(q.user, q.operation, Text.Trim(q.header))
  }

  /** One request against the house: the house it leaves, and the reply. */
  function Serve<S, P(==), R>(h: House<S, P, R>, q: Request<S, P, R>): (House<S, P, R>, Reply<R>) {
    if !q.keyed then
      match q.body(h.state)
      case None => (h, RolledBack)
      case Some(done) => (h.(state := done.0), Done(done.1))
    else if !ValidKey(Text.Trim(q.header)) then (h, KeyRequired)
    else
      var identity := IdentityOf(q);
      if identity in h.records then
        if h.records[identity].payload == q.payload then (h, Replayed(h.records[identity].response)) else (h, Conflict)
      else
        match q.body(h.state)
        case None => (h, RolledBack)
        case Some(done) =>
          (House(done.0, h.records[identity := Stored(q.payload, done.1)], h.history + [identity]), Done(done.1))
  }

  function ServeAll<S, P(==), R>(h: House<S, P, R>, requests: seq<Request<S, P, R>>): House<S, P, R>
    decreases |requests|
  {
    if requests == [] then h else ServeAll(Serve(h, requests[0]).0, requests[1..])
  }

  /** Every committed body has its record, once. */
  predicate Consistent<S, P, R>(h: House<S, P, R>) {
    && (forall i :: 0 <= i < |h.history| ==> h.history[i] in h.records)
    && (forall i, j :: 0 <= i < j < |h.history| ==> h.history[i] != h.history[j])
    && (forall k :: k in h.records ==> k in h.history)
  }

  /** One request keeps consistency, and never touches a record that exists. */
  lemma ServeKeeps<S, P, R>(h: House<S, P, R>, q: Request<S, P, R>)
    requires Consistent(h)
    ensures Consistent(Serve(h, q).0)
    ensures forall k :: k in h.records ==> k in Serve(h, q).0.records && Serve(h, q).0.records[k] == h.records[k]
    ensures h.history <= Serve(h, q).0.history
  {
  }

  lemma {:induction false} ServeAllKeeps<S, P, R>(h: House<S, P, R>, requests: seq<Request<S, P, R>>)
    requires Consistent(h)
    ensures Consistent(ServeAll(h, requests))
    ensures forall k :: k in h.records ==>
              k in ServeAll(h, requests).records && ServeAll(h, requests).records[k] == h.records[k]
    ensures h.history <= ServeAll(h, requests).history
    decreases |requests|
  {
    if requests != [] {
      ServeKeeps(h, requests[0]);
      ServeAllKeeps(Serve(h, requests[0]).0, requests[1..]);
    }
  }

  /** Per user, operation and key at most one body ever commits. */
  lemma AtMostOneBody<S, P, R>(state: S, requests: seq<Request<S, P, R>>, i: nat, j: nat)
    requires var h := ServeAll(House(state, map[], []), requests);
             i < |h.history| && j < |h.history| && h.history[i] == h.history[j]
    ensures i == j
  {
    ServeAllKeeps(House(state, map[], []), requests);
  }

  /**
   After a keyed request committed, and whatever was served in between: the same payload gets the first response
   without running its body, another payload is refused, and the business state is left alone either way.
   */
  lemma LaterRequestsReplay<S, P, R>(h: House<S, P, R>, first: Request<S, P, R>, between: seq<Request<S, P, R>>,
      later: Request<S, P, R>)
    requires Consistent(h) && first.keyed && later.keyed && IdentityOf(first) == IdentityOf(later)
    requires Serve(h, first).1.Done?
    ensures var then' := ServeAll(Serve(h, first).0, between);
            && Serve(then', later).0 == then'
            && Serve(then', later).1
                 == if later.payload == first.payload then Replayed(Serve(h, first).1.response) else Conflict
  {
    ServeKeeps(h, first);
    ServeAllKeeps(Serve(h, first).0, between);
  }

  predicate Attempted<S, P, R>(attempts: seq<Request<S, P, R>>, again: Request<S, P, R>) {
    exists i :: 0 <= i < |attempts| && attempts[i].keyed && IdentityOf(attempts[i]) == IdentityOf(again)
  }

  /**
   Previews and failed attempts, however many of them, leave nothing behind, so their keys are still free: the next
   attempt under one of them runs its body against the state the first one met.
   */
  lemma {:induction false} RolledBackLeavesNothing<S, P, R>(h: House<S, P, R>, attempts: seq<Request<S, P, R>>,
      again: Request<S, P, R>)
    requires forall i :: 0 <= i < |attempts| ==> Serve(h, attempts[i]).1.RolledBack?
    ensures ServeAll(h, attempts) == h
    ensures again.keyed && again.body(h.state).Some? && Attempted(attempts, again) ==>
              Serve(ServeAll(h, attempts), again).1 == Done(again.body(h.state).value.1)
    decreases |attempts|
  {
    if attempts != [] {
      assert Serve(h, attempts[0]).0 == h;
      RolledBackLeavesNothing(h, attempts[1..], again);
    }
  }

  // ---------- keys ----------

  const NUMERALS := "0123456789"
  const PUNCTUATION := "._:-"

  predicate Alphanumeric(c: char) {
    c in Text.CAPITAL || c in Text.SMALL || c in NUMERALS
  }

  lemma LettersMean(c: char)
    ensures c in Text.CAPITAL <==> 'A' <= c <= 'Z'
    ensures c in Text.SMALL <==> 'a' <= c <= 'z'
  {
    forall i: nat | i < 26
      ensures Text.SMALL[i] as int == 'a' as int + i && Text.CAPITAL[i] as int == 'A' as int + i
    {
      Text.Alphabet(i);
    }
    if 'A' <= c <= 'Z' {
      assert Text.CAPITAL[c as int - 'A' as int] == c;
    }
    if 'a' <= c <= 'z' {
      assert Text.SMALL[c as int - 'a' as int] == c;
    }
  }

  lemma NumeralsMean(c: char)
    ensures c in NUMERALS <==> '0' <= c <= '9'
  {
    assert forall i :: 0 <= i < 10 ==> NUMERALS[i] as int == '0' as int + i;
    if '0' <= c <= '9' {
      assert NUMERALS[c as int - '0' as int] == c;
    }
  }

  lemma KeyCharMeans(c: char)
    ensures Alphanumeric(c) <==> 'A' <= c <= 'Z' || 'a' <= c <= 'z' || '0' <= c <= '9'
    ensures Alphanumeric(c) || c in PUNCTUATION <==> KeyChar(c)
  {
    LettersMean(c);
    NumeralsMean(c);
    PunctuationMeans(c);
  }

  /** 8 to 128 letters, digits and separators, beginning with a letter or digit. */
  predicate WellFormed(key: string) {
    && 8 <= |key| && |key| <= 128 && Alphanumeric(key[0])
    && forall i :: 0 <= i < |key| ==> Alphanumeric(key[i]) || key[i] in PUNCTUATION
  }

  lemma ValidKeyMeans(key: string)
    ensures ValidKey(key) <==> WellFormed(key)
  {
    if key != "" {
      KeyCharMeans(key[0]);
    }
    AllKeyChars(key);
  }

  lemma AllKeyChars(key: string)
    ensures (forall i :: 0 <= i < |key| ==> Alphanumeric(key[i]) || key[i] in PUNCTUATION)
         <==> (forall i :: 0 <= i < |key| ==> KeyChar(key[i]))
  {
    forall i | 0 <= i < |key|
      ensures Alphanumeric(key[i]) || key[i] in PUNCTUATION <==> KeyChar(key[i])
    {
      KeyCharMeans(key[i]);
    }
  }

  /**
   A guided request is turned away for its key exactly if the key, without blanks around it, is not well formed; a
   native one never is; and a request turned away leaves everything as it was.
   */
  lemma KeyRefusedIff<S, P, R>(h: House<S, P, R>, q: Request<S, P, R>)
    ensures Serve(h, q).1.KeyRequired? <==> q.keyed && !WellFormed(Text.Trim(q.header))
    ensures Serve(h, q).1.KeyRequired? ==> Serve(h, q).0 == h
  {
    ValidKeyMeans(Text.Trim(q.header));
  }

  lemma PunctuationMeans(c: char)
    ensures c in PUNCTUATION <==> c == '.' || c == '_' || c == ':' || c == '-'
  {
    assert PUNCTUATION[0] == '.' && PUNCTUATION[1] == '_' && PUNCTUATION[2] == ':' && PUNCTUATION[3] == '-';
  }

  // ---------- the handlers ----------

  class Records<S(!new), P(==,!new), R(!new)> {
    var state: S
    var records: map<Identity, Stored<P, R>>
    ghost var history: seq<Identity>

    ghost function Contents(): House<S, P, R>
      reads this
    {
      House(state, records, history)
    }

    constructor (state: S)
      ensures Contents() == House(state, map[], [])
    {
      this.state, records, history := state, map[], [];
    }

    /** beginRequiredOwnerMutation: None lets the body run; Some is the final reply. */
    method Begin(identity: Identity, payload: P) returns (reply: Option<Reply<R>>)
      ensures reply == if !ValidKey(identity.key) then Some(KeyRequired)
                       else if identity !in records then None
                       else if records[identity].payload == payload
                       then Some(Replayed(records[identity].response)) else Some(Conflict)
    {
      if !ValidKey(identity.key) {
        return Some(KeyRequired);
      }
      if identity !in records {
        return None;
      }
      var existing := records[identity];
      if existing.payload != payload {
        return Some(Conflict);
      }
      return Some(Replayed(existing.response));
    }

    /** completeIdempotentMutation. */
    method Complete(identity: Identity, payload: P, response: R)
      modifies `records, `history
      ensures records == old(records)[identity := Stored(payload, response)] && history == old(history) + [identity]
    {
      records := records[identity := Stored(payload, response)];
      history := history + [identity];
    }

    /** One transaction: begin, body, complete; a body that fails rolls everything back. */
    method Handle(q: Request<S, P, R>) returns (reply: Reply<R>)
      modifies this
      ensures (Contents(), reply) == Serve(old(Contents()), q)
    {
      var identity := IdentityOf(q);
      if q.keyed {
        var answer := Begin(identity, q.payload);
        if answer.Some? {
          return answer.value;
        }
      }
      match q.body(state)
      case None => return RolledBack;
      case Some(done) =>
        state := done.0;
        if q.keyed {
          Complete(identity, q.payload, done.1);
        }
        return Done(done.1);
    }
  }
}
