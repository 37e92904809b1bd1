/**
 * Sender extraction: the defensive walk over a webhook payload along
 * `entry[].changes[].value.messages[].from`, collecting every truthy `from`
 * into a JavaScript `Set` and returning it in insertion order. A TypeError
 * anywhere in the walk is caught around the whole traversal: it stops the
 * walk and keeps what was collected so far.
 *
 * The walk is specified in two layers: `Senders` lists the truthy `from`
 * values the traversal reaches, in order and with repetitions, and says
 * whether it finished; `FirstOccurrences` is what a `Set` keeps of that list.
 * `ExtractPhones` is the imperative traversal, proved to return
 * `Phones(payload)`, the composition of the two.
 */
module Extract {
  import opened Wrappers
  import opened Json

  /** The values a traversal has reached, and whether it ran to the end
      (`completed`) or was stopped by a TypeError. */
  datatype Walk = Walk(seen: seq<Json>, completed: bool)

  /** The items of `payload.entry ?? []`, or `None` when reaching them throws. */
  function EntriesOf(payload: Json): Option<seq<Json>> {
    match Member(Value(payload), "entry")
    case Throws => None
    case Yields(v) => ForOf(v)
  }

  /** The items of `e.changes ?? []`, or `None` when reaching them throws. */
  function ChangesOf(e: Json): Option<seq<Json>> {
    match Member(Value(e), "changes")
    case Throws => None
    case Yields(v) => ForOf(v)
  }

  /** The items of `ch.value.messages ?? []`, or `None` when reaching them
      throws (in particular when `ch.value` is missing or null). */
  function MessagesOf(ch: Json): Option<seq<Json>> {
    match Member(Value(ch), "value")
    case Throws => None
    case Yields(value) =>
      match Member(value, "messages")
      case Throws => None
      case Yields(v) => ForOf(v)
  }

  /** The innermost loop over `messages`, starting from the values `seen` so far. */
  function WalkMessages(ms: seq<Json>, seen: seq<Json>): Walk
    decreases |ms|
  {
    if ms == [] then Walk(seen, true)
    else
      match Member(Value(ms[0]), "from")
      case Throws => Walk(seen, false)
      case Yields(from) => WalkMessages(ms[1..], if Truthy(from) then seen + [from.json] else seen)
  }

  /** The middle loop over `changes`. */
  function WalkChanges(chs: seq<Json>, seen: seq<Json>): Walk
    decreases |chs|
  {
    if chs == [] then Walk(seen, true)
    else
      match MessagesOf(chs[0])
      case None => Walk(seen, false)
      case Some(ms) =>
        var w := WalkMessages(ms, seen);
        if w.completed then WalkChanges(chs[1..], w.seen) else w
  }

  /** The outer loop over `entry`. */
  function WalkEntries(es: seq<Json>, seen: seq<Json>): Walk
    decreases |es|
  {
    if es == [] then Walk(seen, true)
    else
      match ChangesOf(es[0])
      case None => Walk(seen, false)
      case Some(chs) =>
        var w := WalkChanges(chs, seen);
        if w.completed then WalkEntries(es[1..], w.seen) else w
  }

  /** The whole traversal of a payload. */
  function Senders(payload: Json): Walk {
    match EntriesOf(payload)
    case None => Walk([], false)
    case Some(es) => WalkEntries(es, [])
  }

  /** What a `Set` keeps of `vs`, in insertion order: the first occurrence of
      each primitive value, and every array or object. */
  function FirstOccurrences(vs: seq<Json>): seq<Json>
    decreases |vs|
  {
    if vs == [] then []
    else
      var init, v := vs[..|vs| - 1], vs[|vs| - 1];
      FirstOccurrences(init) + (if IsReference(v) || v !in init then [v] else [])
  }

  /** The result of `extractPhones(payload)`. */
  function Phones(payload: Json): seq<Json> {
    FirstOccurrences(Senders(payload).seen)
  }

  /** A traversal continued after the `changes` loop of the current entry. */
  function ThenEntries(w: Walk, es: seq<Json>): Walk {
    if w.completed then WalkEntries(es, w.seen) else w
  }

  /** A traversal continued after the `messages` loop of the current change. */
  function ThenChanges(w: Walk, chs: seq<Json>): Walk {
    if w.completed then WalkChanges(chs, w.seen) else w
  }

  // ---------------------------------------------------------------------
  // Where the collected values come from
  // ---------------------------------------------------------------------

  /** Message `m` has a truthy `from` equal to `v`. */
  ghost predicate MessageFrom(m: Json, v: Json) {
    Member(Value(m), "from") == Yields(Value(v)) && Truthy(Value(v))
  }

  ghost predicate SentInMessages(ms: seq<Json>, v: Json) {
    exists k :: 0 <= k < |ms| && MessageFrom(ms[k], v)
  }

  ghost predicate SentInChanges(chs: seq<Json>, v: Json) {
    exists j :: 0 <= j < |chs| && MessagesOf(chs[j]).Some? && SentInMessages(MessagesOf(chs[j]).value, v)
  }

  ghost predicate SentInEntries(es: seq<Json>, v: Json) {
    exists i :: 0 <= i < |es| && ChangesOf(es[i]).Some? && SentInChanges(ChangesOf(es[i]).value, v)
  }

  /** `v` is the truthy `from` of some message reached through
      `payload.entry[i].changes[j].value.messages[k]`. */
  ghost predicate SentIn(payload: Json, v: Json) {
    EntriesOf(payload).Some? && SentInEntries(EntriesOf(payload).value, v)
  }

  // ---------------------------------------------------------------------
  // The imperative traversal
  // ---------------------------------------------------------------------

  /** `extractPhones`: three nested loops under one `try`; `aborted` records
      that the `catch` was reached. `phones` is the `Set`, kept as a sequence
      in insertion order. */
  method ExtractPhones(payload: Json) returns (phones: seq<Json>)
    ensures phones == Phones(payload)
  {
    phones := [];
    ghost var seen: seq<Json> := [];
    var aborted := false;
    var entries := EntriesOf(payload);
    if entries.None? {
      return;
    }
    var es := entries.value;
    var i := 0;
    while i < |es| && !aborted
      invariant 0 <= i <= |es|
      invariant phones == FirstOccurrences(seen)
      invariant aborted ==> Senders(payload) == Walk(seen, false)
      invariant !aborted ==> Senders(payload) == WalkEntries(es[i..], seen)
    {
      assert es[i..][0] == es[i] && es[i..][1..] == es[i + 1..];
      var changes := ChangesOf(es[i]);
      if changes.None? {
        aborted := true;
      } else {
        var chs := changes.value;
        var j := 0;
        while j < |chs| && !aborted
          invariant 0 <= j <= |chs|
          invariant phones == FirstOccurrences(seen)
          invariant aborted ==> Senders(payload) == Walk(seen, false)
          invariant !aborted ==> Senders(payload) == ThenEntries(WalkChanges(chs[j..], seen), es[i + 1..])
        {
          assert chs[j..][0] == chs[j] && chs[j..][1..] == chs[j + 1..];
          var messages := MessagesOf(chs[j]);
          if messages.None? {
            aborted := true;
          } else {
            var ms := messages.value;
            var k := 0;
            while k < |ms| && !aborted
              invariant 0 <= k <= |ms|
              invariant phones == FirstOccurrences(seen)
              invariant aborted ==> Senders(payload) == Walk(seen, false)
              invariant !aborted ==> Senders(payload) == ThenEntries(ThenChanges(WalkMessages(ms[k..], seen), chs[j + 1..]), es[i + 1..])
            {
              assert ms[k..][0] == ms[k] && ms[k..][1..] == ms[k + 1..];
              match Member(Value(ms[k]), "from") {
                case Throws =>
                  aborted := true;
                case Yields(from) =>
                  if Truthy(from) {
                    FirstOccurrencesMembers(seen);
                    if IsReference(from.json) || from.json !in phones {
                      phones := phones + [from.json];
                    }
                    assert (seen + [from.json])[..|seen|] == seen;
                    seen := seen + [from.json];
                  }
              }
              k := k + 1;
            }
          }
          j := j + 1;
        }
      }
      i := i + 1;
    }
  }

  // ---------------------------------------------------------------------
  // The Set: no duplicates, nothing lost
  // ---------------------------------------------------------------------

  /** A value is kept exactly when it occurs in the input. */
  lemma {:induction false} FirstOccurrencesMembers(vs: seq<Json>)
    ensures forall v :: v in FirstOccurrences(vs) <==> v in vs
    decreases |vs|
  {
    if vs != [] {
      var init := vs[..|vs| - 1];
      FirstOccurrencesMembers(init);
      assert vs == init + [vs[|vs| - 1]];
    }
  }

  /** No primitive value is kept twice; only distinct references can repeat. */
  lemma {:induction false} FirstOccurrencesDistinct(vs: seq<Json>)
    ensures forall i, j :: 0 <= i < j < |FirstOccurrences(vs)| && FirstOccurrences(vs)[i] == FirstOccurrences(vs)[j] ==> IsReference(FirstOccurrences(vs)[i])
    decreases |vs|
  {
    if vs != [] {
      var init, v := vs[..|vs| - 1], vs[|vs| - 1];
      FirstOccurrencesDistinct(init);
      FirstOccurrencesMembers(init);
      var prev := FirstOccurrences(init);
      var out := FirstOccurrences(vs);
      forall i, j | 0 <= i < j < |out| && out[i] == out[j]
        ensures IsReference(out[i])
      {
        if j >= |prev| {
          assert out[j] == v && out[i] == prev[i];
          assert prev[i] in prev;
        } else {
          assert out[i] == prev[i] && out[j] == prev[j];
        }
      }
    }
  }

  // ---------------------------------------------------------------------
  // The walk keeps what it has collected
  // ---------------------------------------------------------------------

  lemma {:induction false} MessagesKeepSeen(ms: seq<Json>, seen: seq<Json>)
    ensures seen <= WalkMessages(ms, seen).seen
    decreases |ms|
  {
    if ms != [] {
      match Member(Value(ms[0]), "from")
      case Throws =>
      case Yields(from) =>
        var next := if Truthy(from) then seen + [from.json] else seen;
        MessagesKeepSeen(ms[1..], next);
    }
  }

  lemma {:induction false} ChangesKeepSeen(chs: seq<Json>, seen: seq<Json>)
    ensures seen <= WalkChanges(chs, seen).seen
    decreases |chs|
  {
    if chs != [] {
      match MessagesOf(chs[0])
      case None =>
      case Some(ms) =>
        MessagesKeepSeen(ms, seen);
        var w := WalkMessages(ms, seen);
        if w.completed {
          ChangesKeepSeen(chs[1..], w.seen);
        }
    }
  }

  lemma {:induction false} EntriesKeepSeen(es: seq<Json>, seen: seq<Json>)
    ensures seen <= WalkEntries(es, seen).seen
    decreases |es|
  {
    if es != [] {
      match ChangesOf(es[0])
      case None =>
      case Some(chs) =>
        ChangesKeepSeen(chs, seen);
        var w := WalkChanges(chs, seen);
        if w.completed {
          EntriesKeepSeen(es[1..], w.seen);
        }
    }
  }

  // ---------------------------------------------------------------------
  // A fault stops the walk: later items are never visited
  // ---------------------------------------------------------------------

  lemma {:induction false} WalkMessagesAppend(a: seq<Json>, b: seq<Json>, seen: seq<Json>)
    ensures WalkMessages(a + b, seen) == (var w := WalkMessages(a, seen); if w.completed then WalkMessages(b, w.seen) else w)
    decreases |a|
  {
    if a == [] {
      assert a + b == b;
    } else {
      assert (a + b)[0] == a[0] && (a + b)[1..] == a[1..] + b;
      match Member(Value(a[0]), "from")
      case Throws =>
      case Yields(from) =>
        WalkMessagesAppend(a[1..], b, if Truthy(from) then seen + [from.json] else seen);
    }
  }

  lemma {:induction false} WalkChangesAppend(a: seq<Json>, b: seq<Json>, seen: seq<Json>)
    ensures WalkChanges(a + b, seen) == ThenChanges(WalkChanges(a, seen), b)
    decreases |a|
  {
    if a == [] {
      assert a + b == b;
    } else {
      assert (a + b)[0] == a[0] && (a + b)[1..] == a[1..] + b;
      match MessagesOf(a[0])
      case None =>
      case Some(ms) =>
        var w := WalkMessages(ms, seen);
        if w.completed {
          WalkChangesAppend(a[1..], b, w.seen);
        }
    }
  }

  lemma {:induction false} WalkEntriesAppend(a: seq<Json>, b: seq<Json>, seen: seq<Json>)
    ensures WalkEntries(a + b, seen) == ThenEntries(WalkEntries(a, seen), b)
    decreases |a|
  {
    if a == [] {
      assert a + b == b;
    } else {
      assert (a + b)[0] == a[0] && (a + b)[1..] == a[1..] + b;
      match ChangesOf(a[0])
      case None =>
      case Some(chs) =>
        var w := WalkChanges(chs, seen);
        if w.completed {
          WalkEntriesAppend(a[1..], b, w.seen);
        }
    }
  }

  /** A message whose `from` cannot be read (a `null` message) stops the
      walk; the values collected from the messages before it are kept. */
  lemma FaultyMessageStops(ms: seq<Json>, seen: seq<Json>, k: nat)
    requires k < |ms| && Member(Value(ms[k]), "from").Throws?
    ensures !WalkMessages(ms, seen).completed
    ensures WalkMessages(ms, seen).seen == WalkMessages(ms[..k], seen).seen
  {
    assert ms == ms[..k] + ms[k..];
    WalkMessagesAppend(ms[..k], ms[k..], seen);
    var w := WalkMessages(ms[..k], seen);
    if w.completed {
      assert ms[k..][0] == ms[k];
    } else {
      assert WalkMessages(ms, seen) == w;
    }
  }

  /** A change whose messages cannot be reached (no `value`, a `null`
      `value`, a non-iterable `messages`) stops the walk. */
  lemma FaultyChangeStops(chs: seq<Json>, seen: seq<Json>, j: nat)
    requires j < |chs| && MessagesOf(chs[j]).None?
    ensures !WalkChanges(chs, seen).completed
    ensures WalkChanges(chs, seen).seen == WalkChanges(chs[..j], seen).seen
  {
    assert chs == chs[..j] + chs[j..];
    WalkChangesAppend(chs[..j], chs[j..], seen);
    assert chs[j..][0] == chs[j];
  }

  /** An entry whose changes cannot be reached (a `null` entry, a
      non-iterable `changes`) stops the walk. */
  lemma FaultyEntryStops(es: seq<Json>, seen: seq<Json>, i: nat)
    requires i < |es| && ChangesOf(es[i]).None?
    ensures !WalkEntries(es, seen).completed
    ensures WalkEntries(es, seen).seen == WalkEntries(es[..i], seen).seen
  {
    assert es == es[..i] + es[i..];
    WalkEntriesAppend(es[..i], es[i..], seen);
    assert es[i..][0] == es[i];
  }

  // ---------------------------------------------------------------------
  // Provenance and completeness
  // ---------------------------------------------------------------------

  lemma {:induction false} MessagesProvenance(ms: seq<Json>, seen: seq<Json>, v: Json)
    requires v in WalkMessages(ms, seen).seen
    ensures v in seen || SentInMessages(ms, v)
    decreases |ms|
  {
    if ms != [] {
      match Member(Value(ms[0]), "from")
      case Throws =>
      case Yields(from) =>
        var next := if Truthy(from) then seen + [from.json] else seen;
        MessagesProvenance(ms[1..], next, v);
        if v !in seen {
          if v in next {
            assert MessageFrom(ms[0], v);
          } else {
            var k :| 0 <= k < |ms[1..]| && MessageFrom(ms[1..][k], v);
            assert MessageFrom(ms[k + 1], v);
          }
        }
    }
  }

  lemma {:induction false} ChangesProvenance(chs: seq<Json>, seen: seq<Json>, v: Json)
    requires v in WalkChanges(chs, seen).seen
    ensures v in seen || SentInChanges(chs, v)
    decreases |chs|
  {
    if chs != [] {
      match MessagesOf(chs[0])
      case None =>
      case Some(ms) =>
        var w := WalkMessages(ms, seen);
        if w.completed {
          ChangesProvenance(chs[1..], w.seen, v);
          if v !in seen {
            if v in w.seen {
              MessagesProvenance(ms, seen, v);
            } else {
              var j :| 0 <= j < |chs[1..]| && MessagesOf(chs[1..][j]).Some? && SentInMessages(MessagesOf(chs[1..][j]).value, v);
              assert chs[1..][j] == chs[j + 1];
            }
          }
        } else {
          MessagesProvenance(ms, seen, v);
        }
    }
  }

  lemma {:induction false} EntriesProvenance(es: seq<Json>, seen: seq<Json>, v: Json)
    requires v in WalkEntries(es, seen).seen
    ensures v in seen || SentInEntries(es, v)
    decreases |es|
  {
    if es != [] {
      match ChangesOf(es[0])
      case None =>
      case Some(chs) =>
        var w := WalkChanges(chs, seen);
        if w.completed {
          EntriesProvenance(es[1..], w.seen, v);
          if v !in seen {
            if v in w.seen {
              ChangesProvenance(chs, seen, v);
            } else {
              var i :| 0 <= i < |es[1..]| && ChangesOf(es[1..][i]).Some? && SentInChanges(ChangesOf(es[1..][i]).value, v);
              assert es[1..][i] == es[i + 1];
            }
          }
        } else {
          ChangesProvenance(chs, seen, v);
        }
    }
  }

  lemma {:induction false} MessagesComplete(ms: seq<Json>, seen: seq<Json>, v: Json)
    requires WalkMessages(ms, seen).completed && SentInMessages(ms, v)
    ensures v in WalkMessages(ms, seen).seen
    decreases |ms|
  {
    var k :| 0 <= k < |ms| && MessageFrom(ms[k], v);
    match Member(Value(ms[0]), "from")
    case Throws =>
    case Yields(from) =>
      var next := if Truthy(from) then seen + [from.json] else seen;
      if k == 0 {
        MessagesKeepSeen(ms[1..], next);
        assert v == next[|next| - 1];
      } else {
        assert MessageFrom(ms[1..][k - 1], v);
        MessagesComplete(ms[1..], next, v);
      }
  }

  lemma {:induction false} ChangesComplete(chs: seq<Json>, seen: seq<Json>, v: Json)
    requires WalkChanges(chs, seen).completed && SentInChanges(chs, v)
    ensures v in WalkChanges(chs, seen).seen
    decreases |chs|
  {
    var j :| 0 <= j < |chs| && MessagesOf(chs[j]).Some? && SentInMessages(MessagesOf(chs[j]).value, v);
    match MessagesOf(chs[0])
    case None =>
    case Some(ms) =>
      var w := WalkMessages(ms, seen);
      if j == 0 {
        MessagesComplete(ms, seen, v);
        ChangesKeepSeen(chs[1..], w.seen);
      } else {
        assert chs[1..][j - 1] == chs[j];
        ChangesComplete(chs[1..], w.seen, v);
      }
  }

  lemma {:induction false} EntriesComplete(es: seq<Json>, seen: seq<Json>, v: Json)
    requires WalkEntries(es, seen).completed && SentInEntries(es, v)
    ensures v in WalkEntries(es, seen).seen
    decreases |es|
  {
    var i :| 0 <= i < |es| && ChangesOf(es[i]).Some? && SentInChanges(ChangesOf(es[i]).value, v);
    match ChangesOf(es[0])
    case None =>
    case Some(chs) =>
      var w := WalkChanges(chs, seen);
      if i == 0 {
        ChangesComplete(chs, seen, v);
        EntriesKeepSeen(es[1..], w.seen);
      } else {
        assert es[1..][i - 1] == es[i];
        EntriesComplete(es[1..], w.seen, v);
      }
  }

  // ---------------------------------------------------------------------
  // What `extractPhones` promises
  // ---------------------------------------------------------------------

  /** Every returned value is the truthy `from` of a message the walk
      reached; in particular an empty `from` string is never returned. */
  lemma PhonesAreSenders(payload: Json)
    ensures forall v :: v in Phones(payload) ==> SentIn(payload, v) && Truthy(Value(v))
  {
    FirstOccurrencesMembers(Senders(payload).seen);
    forall v | v in Phones(payload)
      ensures SentIn(payload, v) && Truthy(Value(v))
    {
      match EntriesOf(payload)
      case None =>
      case Some(es) =>
        EntriesProvenance(es, [], v);
        var i :| 0 <= i < |es| && ChangesOf(es[i]).Some? && SentInChanges(ChangesOf(es[i]).value, v);
        var chs := ChangesOf(es[i]).value;
        var j :| 0 <= j < |chs| && MessagesOf(chs[j]).Some? && SentInMessages(MessagesOf(chs[j]).value, v);
    }
  }

  /** When the walk meets no fault, every truthy `from` it can reach is returned. */
  lemma PhonesIncludeEverySender(payload: Json, v: Json)
    requires Senders(payload).completed && SentIn(payload, v)
    ensures v in Phones(payload)
  {
    FirstOccurrencesMembers(Senders(payload).seen);
    EntriesComplete(EntriesOf(payload).value, [], v);
  }

  /** The result lists each phone once: only distinct objects or arrays
      (never strings) can appear twice. */
  lemma PhonesDistinct(payload: Json)
    ensures forall i, j :: 0 <= i < j < |Phones(payload)| && Phones(payload)[i] == Phones(payload)[j] ==> IsReference(Phones(payload)[i])
    ensures (forall v :: v in Phones(payload) ==> v.JStr?) ==> forall i, j :: 0 <= i < j < |Phones(payload)| ==> Phones(payload)[i] != Phones(payload)[j]
  {
    FirstOccurrencesDistinct(Senders(payload).seen);
    var out := Phones(payload);
    if forall v :: v in out ==> v.JStr? {
      forall i, j | 0 <= i < j < |out|
        ensures out[i] != out[j]
      {
        assert out[i] in out;
      }
    }
  }

  /** A payload with no `entry` (or a `null` one) yields nothing and does not
      fault; this is also the `{}` used when the body is not JSON. */
  lemma MissingEntryYieldsNothing(payload: Json)
    requires payload != JNull
    requires payload.JObj? ==> "entry" !in payload.fields || payload.fields["entry"] == JNull
    ensures Senders(payload) == Walk([], true) && Phones(payload) == []
  {
  }

  /** An entry with no `changes` (or `null` ones) contributes nothing and the
      walk goes on with the next entry. */
  lemma MissingChangesSkipped(e: Json, es: seq<Json>, seen: seq<Json>)
    requires e.JObj? && ("changes" !in e.fields || e.fields["changes"] == JNull)
    ensures WalkEntries([e] + es, seen) == WalkEntries(es, seen)
  {
    assert ([e] + es)[0] == e && ([e] + es)[1..] == es;
  }

  /** A change whose `value` has no `messages` (or `null` ones) contributes
      nothing and the walk goes on with the next change. */
  lemma MissingMessagesSkipped(ch: Json, chs: seq<Json>, seen: seq<Json>)
    requires ch.JObj? && "value" in ch.fields && ch.fields["value"] != JNull
    requires ch.fields["value"].JObj? ==> "messages" !in ch.fields["value"].fields || ch.fields["value"].fields["messages"] == JNull
    ensures WalkChanges([ch] + chs, seen) == WalkChanges(chs, seen)
  {
    assert ([ch] + chs)[0] == ch && ([ch] + chs)[1..] == chs;
  }

  /** A worked payload: a repeated sender is kept once, an empty `from` is
      skipped, and the `null` message stops the walk before the sender after
      it, while the senders before it are still returned. */
  lemma NullMessageExample()
    ensures var ms := [Message("A"), Message("B"), Message("A"), Message(""), JNull, Message("C")];
            var change := JObj(map["value" := JObj(map["messages" := JArr(ms)])]);
            var payload := JObj(map["entry" := JArr([JObj(map["changes" := JArr([change])])])]);
            !Senders(payload).completed && Phones(payload) == [JStr("A"), JStr("B")]
  {
    var ms := [Message("A"), Message("B"), Message("A"), Message(""), JNull, Message("C")];
    var change := JObj(map["value" := JObj(map["messages" := JArr(ms)])]);
    var entry := JObj(map["changes" := JArr([change])]);
    var payload := JObj(map["entry" := JArr([entry])]);
    var a, b := JStr("A"), JStr("B");
    assert ms[..4] == [Message("A"), Message("B"), Message("A"), Message("")];
    ExampleMessagesBeforeNull();
    FaultyMessageStops(ms, [], 4);
    assert EntriesOf(payload) == Some([entry]);
    assert ChangesOf(entry) == Some([change]);
    assert MessagesOf(change) == Some(ms);
    assert WalkChanges([change], []) == Walk([a, b, a], false);
    ExampleFirstOccurrences();
  }

  /** The walk over the four messages before the `null` one. */
  lemma ExampleMessagesBeforeNull()
    ensures WalkMessages([Message("A"), Message("B"), Message("A"), Message("")], []) == Walk([JStr("A"), JStr("B"), JStr("A")], true)
  {
    var a, b := JStr("A"), JStr("B");
    var ms := [Message("A"), Message("B"), Message("A"), Message("")];
    assert Member(Value(Message("A")), "from") == Yields(Value(a)) && Truthy(Value(a));
    assert Member(Value(Message("B")), "from") == Yields(Value(b)) && Truthy(Value(b));
    assert [] + [a] == [a] && [a] + [b] == [a, b] && [a, b] + [a] == [a, b, a];
    assert ms[1..] == [Message("B"), Message("A"), Message("")];
    assert ms[1..][1..] == [Message("A"), Message("")];
    assert ms[1..][1..][1..] == [Message("")];
    assert WalkMessages(ms[1..][1..][1..], [a, b, a]) == Walk([a, b, a], true);
    assert WalkMessages(ms[1..][1..], [a, b]) == Walk([a, b, a], true);
    assert WalkMessages(ms[1..], [a]) == Walk([a, b, a], true);
  }

  /** The set keeps the first "A" and drops the second. */
  lemma ExampleFirstOccurrences()
    ensures FirstOccurrences([JStr("A"), JStr("B"), JStr("A")]) == [JStr("A"), JStr("B")]
  {
    var vs := [JStr("A"), JStr("B"), JStr("A")];
    assert vs[..2] == [JStr("A"), JStr("B")] && vs[..2][..1] == [JStr("A")];
    assert FirstOccurrences(vs[..2][..1]) == [JStr("A")];
  }

  /** A message object whose `from` is the string `phone`. */
  function Message(phone: string): Json {
    JObj(map["from" := JStr(phone)])
  }
}
