/**
 Standard mode: the mint is the replay gate.

 A token is swapped at the mint and only then claimed in Redis, and the claim fails open. Tokens
 are known by their text; `book` says which proofs each text decodes to. Two different texts may
 share proofs, so the Redis marker, kept per text, could not do the job on its own.
 */
module SwapClaims {
  import opened Commands
  import opened Markers
  import opened Options
  import opened Sequences

  type Proof = nat
  type Book = map<Key, set<Proof>>

  /** How `receive` ended: Ok; refused by the mint; or an error after the mint had swapped. */
  datatype Receipt = Swapped | Refused | SwappedButFailed

  datatype State = State(
    now: nat,
    up: bool,
    spent: set<Proof>,
    markers: Space,
    received: map<nat, Key>,      // requests whose receive returned Ok and that claim next
    admitted: seq<Key>,           // history
    rejected: seq<Key>,           // history: told "already used" after a successful swap
    spender: map<Proof, Key>)     // history: the text whose swap spent the proof

  datatype Event =
    | Tick
    | Outage
    | Recovery
    | Receive(id: nat, text: Key, receipt: Receipt)
    | Commit(id: nat, fate: Fate)
    | Crash(id: nat)

  const INIT := State(0, true, {}, map[], map[], [], [], map[])

  function Next(book: Book, ttl: nat, s: State, e: Event): State {
    match e
    case Tick => s.(now := s.now + 1)
    case Outage => s.(up := false)
    case Recovery => s.(up := true)
    case Receive(id, text, receipt) =>
      // A token pays a positive price, so it holds proofs; the mint swaps all of them or none.
      if id in s.received || text !in book || book[text] == {} || receipt.Refused? || !(book[text] !! s.spent) then s
      else
        var s1 := s.(spent := s.spent + book[text], spender := s.spender + map p | p in book[text] :: text);
        if receipt.Swapped? then s1.(received := s.received[id := text]) else s1
    case Commit(id, fate) =>
      if id !in s.received then s
      else
        var text := s.received[id];
        var s1 := s.(received := s.received - {id},
                     markers := if !s.up || fate.NotSent? || ttl == 0 then s.markers
                                else Claim(s.markers, text, s.now, Some(ttl)));
        if s.up && fate.Answered? && ttl > 0 && Live(s.markers, text, s.now)
        then s1.(rejected := s.rejected + [text])
        else s1.(admitted := s.admitted + [text])
    case Crash(id) => s.(received := s.received - {id})
  }

  function Run(book: Book, ttl: nat, s: State, es: seq<Event>): State
    decreases |es|
  {
    if es == [] then s else Run(book, ttl, Next(book, ttl, s, es[0]), es[1..])
  }

  lemma {:induction false} RunsOn(book: Book, ttl: nat, s: State, es: seq<Event>, e: Event)
    ensures Run(book, ttl, s, es + [e]) == Next(book, ttl, Run(book, ttl, s, es), e)
    decreases |es|
  {
    if es == [] {
      assert es + [e] == [e] && [e][1..] == [];
    } else {
      assert (es + [e])[1..] == es[1..] + [e];
      RunsOn(book, ttl, Next(book, ttl, s, es[0]), es[1..], e);
    }
  }

  /** The world around: time, Redis, and requests that die after their swap. */
  lemma Surroundings(book: Book, ttl: nat, s: State, id: nat)
    ensures Next(book, ttl, s, Tick) == s.(now := s.now + 1)
    ensures Next(book, ttl, s, Outage) == s.(up := false) && Next(book, ttl, s, Recovery) == s.(up := true)
    ensures Next(book, ttl, s, Crash(id)) == s.(received := s.received - {id})
  {
  }

  /** The mint swaps all of an unspent token's proofs, also when the request never hears of it. */
  lemma ReceiveSpends(book: Book, ttl: nat, s: State, id: nat, text: Key, receipt: Receipt)
    requires id !in s.received && text in book && book[text] != {} && book[text] !! s.spent && receipt != Refused
    ensures var s' := Next(book, ttl, s, Receive(id, text, receipt));
            && s'.spent == s.spent + book[text]
            && (forall p | p in book[text] :: p in s'.spender && s'.spender[p] == text)
            && s'.received == (if receipt == Swapped then s.received[id := text] else s.received)
            && s'.admitted == s.admitted && s'.rejected == s.rejected && s'.markers == s.markers
            && s'.now == s.now && s'.up == s.up
  {
  }

  /** Nothing is swapped of a token that is unknown, empty, partly spent or refused. */
  lemma ReceiveRefused(book: Book, ttl: nat, s: State, id: nat, text: Key, receipt: Receipt, p: Proof)
    requires id in s.received || text !in book || book[text] == {} || receipt == Refused
             || (p in book[text] && p in s.spent)
    ensures Next(book, ttl, s, Receive(id, text, receipt)) == s
  {
  }

  /**
   What becomes of a claim in any state, reachable or not: the token is told "already used" exactly when
   Redis is up, answers, accepts the expiry and has a live marker; the marker is set when it is reached.
   */
  lemma ClaimDecides(book: Book, ttl: nat, s: State, id: nat, fate: Fate)
    requires id in s.received
    ensures var text := s.received[id];
            var s' := Next(book, ttl, s, Commit(id, fate));
            var used := s.up && fate == Answered && ttl > 0 && Live(s.markers, text, s.now);
            && s'.received == s.received - {id} && s'.spent == s.spent && s'.spender == s.spender
            && s'.now == s.now && s'.up == s.up
            && s'.rejected == (if used then s.rejected + [text] else s.rejected)
            && s'.admitted == (if used then s.admitted else s.admitted + [text])
            && s'.markers == if s.up && fate != NotSent && ttl > 0 && !Live(s.markers, text, s.now)
                             then s.markers[text := At(s.now + ttl)] else s.markers
  {
  }

  /** The text was swapped, and its proofs are its own. */
  ghost predicate SpentBy(book: Book, s: State, text: Key) {
    && text in book && book[text] != {}
    && forall p | p in book[text] :: p in s.spent && p in s.spender && s.spender[p] == text
  }

  ghost predicate Inv(book: Book, s: State) {
    && s.rejected == []
    && Distinct(s.admitted)
    && (forall text | text in s.admitted :: SpentBy(book, s, text))
    && (forall id | id in s.received :: SpentBy(book, s, s.received[id]) && s.received[id] !in s.admitted)
    && (forall a, b | a in s.received && b in s.received && a != b :: s.received[a] != s.received[b])
    && (forall text | text in s.markers :: text in s.admitted)
    && s.spender.Keys == s.spent
  }

  lemma ReceiveKeeps(book: Book, ttl: nat, s: State, id: nat, text: Key, receipt: Receipt)
    requires Inv(book, s)
    ensures Inv(book, Next(book, ttl, s, Receive(id, text, receipt)))
  {
    var s' := Next(book, ttl, s, Receive(id, text, receipt));
    if s' != s {
      forall known | SpentBy(book, s, known) ensures known != text && SpentBy(book, s', known) {
        var p :| p in book[known];
        assert p in s.spent;
      }
      assert SpentBy(book, s', text);
    }
  }

  lemma CommitKeeps(book: Book, ttl: nat, s: State, id: nat, fate: Fate)
    requires Inv(book, s)
    ensures Inv(book, Next(book, ttl, s, Commit(id, fate)))
  {
    var s' := Next(book, ttl, s, Commit(id, fate));
    if s' != s {
      var text := s.received[id];
      assert !Live(s.markers, text, s.now);
      assert s'.admitted == s.admitted + [text];
      assert forall known | SpentBy(book, s, known) :: SpentBy(book, s', known);
    }
  }

  lemma NextKeeps(book: Book, ttl: nat, s: State, e: Event)
    requires Inv(book, s)
    ensures Inv(book, Next(book, ttl, s, e))
  {
    match e
    case Receive(id, text, receipt) => ReceiveKeeps(book, ttl, s, id, text, receipt);
    case Commit(id, fate) => CommitKeeps(book, ttl, s, id, fate);
    case _ => assert forall known | SpentBy(book, s, known) :: SpentBy(book, Next(book, ttl, s, e), known);
  }

  lemma {:induction false} RunKeeps(book: Book, ttl: nat, s: State, es: seq<Event>)
    requires Inv(book, s)
    ensures Inv(book, Run(book, ttl, s, es))
    decreases |es|
  {
    if es != [] {
      NextKeeps(book, ttl, s, es[0]);
      RunKeeps(book, ttl, Next(book, ttl, s, es[0]), es[1..]);
    }
  }

  /**
   In every run, Redis outages, lost replies and expired markers included, no proof leads to more
   than one admission: not twice under one text, and not under two texts.
   */
  lemma EachProofAdmitsOnce(book: Book, ttl: nat, es: seq<Event>, i: nat, j: nat, p: Proof)
    requires i < |Run(book, ttl, INIT, es).admitted| && j < |Run(book, ttl, INIT, es).admitted|
    requires var admitted := Run(book, ttl, INIT, es).admitted;
             admitted[i] in book && admitted[j] in book && p in book[admitted[i]] && p in book[admitted[j]]
    ensures i == j
  {
    RunKeeps(book, ttl, INIT, es);
    var s := Run(book, ttl, INIT, es);
    assert SpentBy(book, s, s.admitted[i]) && SpentBy(book, s, s.admitted[j]);
    assert s.admitted[i] == s.spender[p] == s.admitted[j];
  }

  lemma ReceivedIsAdmitted(book: Book, ttl: nat, s: State, id: nat, fate: Fate)
    requires Inv(book, s) && id in s.received
    ensures var s' := Next(book, ttl, s, Commit(id, fate));
            && s'.admitted == s.admitted + [s.received[id]] && s'.rejected == []
            && s'.spent == s.spent && s'.received == s.received - {id}
  {
    CommitKeeps(book, ttl, s, id, fate);
  }

  /** Whatever Redis says or fails to say, a swap that succeeded is admitted: "already used" is unreachable after it. */
  lemma EverySwapIsAdmitted(book: Book, ttl: nat, es: seq<Event>, id: nat, fate: Fate)
    requires id in Run(book, ttl, INIT, es).received
    ensures var s := Run(book, ttl, INIT, es);
            var s' := Next(book, ttl, s, Commit(id, fate));
            s'.admitted == s.admitted + [s.received[id]] && s'.rejected == []
  {
    RunKeeps(book, ttl, INIT, es);
    ReceivedIsAdmitted(book, ttl, Run(book, ttl, INIT, es), id, fate);
  }

  /**
   The marker alone would not do: with proofs in two encodings, the second text finds no marker.
   Only the mint's spent set stops it.
   */
  lemma ReencodedTokenIsStoppedByTheMint(book: Book, ttl: nat, es: seq<Event>, text: Key, other: Key, id: nat)
    requires text in book && other in book && text != other && book[text] * book[other] != {}
    requires text in Run(book, ttl, INIT, es).admitted
    ensures var s := Run(book, ttl, INIT, es);
            other !in s.markers && Next(book, ttl, s, Receive(id, other, Swapped)) == s
  {
    RunKeeps(book, ttl, INIT, es);
    var s := Run(book, ttl, INIT, es);
    var p :| p in book[text] * book[other];
    assert SpentBy(book, s, text) && p in s.spent;
    if other in s.admitted { assert SpentBy(book, s, other) && s.spender[p] == text; }
  }

  /** A token none of whose proofs is spent is let in, whatever becomes of its claim. */
  lemma UnspentTokenIsAdmitted(book: Book, ttl: nat, es: seq<Event>, text: Key, id: nat, fate: Fate)
    requires text in book && book[text] != {}
    requires var s := Run(book, ttl, INIT, es); book[text] !! s.spent && id !in s.received
    ensures var s := Run(book, ttl, INIT, es);
            var s' := Run(book, ttl, INIT, es + [Receive(id, text, Swapped)] + [Commit(id, fate)]);
            && s'.admitted == s.admitted + [text] && s'.rejected == []
            && s'.spent == s.spent + book[text] && s'.received == s.received
  {
    RunKeeps(book, ttl, INIT, es);
    var s := Run(book, ttl, INIT, es);
    ReceiveKeeps(book, ttl, s, id, text, Swapped);
    var s1 := Next(book, ttl, s, Receive(id, text, Swapped));
    ReceivedIsAdmitted(book, ttl, s1, id, fate);
    assert s.received[id := text] - {id} == s.received;
    RunsOn(book, ttl, INIT, es, Receive(id, text, Swapped));
    RunsOn(book, ttl, INIT, es + [Receive(id, text, Swapped)], Commit(id, fate));
  }
}
