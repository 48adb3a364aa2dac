/** One state key over a whole run of evaluations: which notifications go out, and when. */
module AlertRuns {
  import opened Common
  import opened Alerts

  /** One evaluation of the key: was the condition met, when, and would a notification be delivered. */
  datatype Obs = Obs(breaching: bool, now: int, delivered: bool)

  datatype Note = Note(at: int, kind: AlertState)

  ghost function Entry(e: RuleState, cooldown: nat, run: seq<Obs>): RuleState {
    if run == [] then e
    else
      var o := run[|run| - 1];
      Processed(Entry(e, cooldown, run[..|run| - 1]), o.breaching, cooldown, o.now, o.delivered).0
  }

  /** The notifications that are sent, in order. */
  ghost function Sent(e: RuleState, cooldown: nat, run: seq<Obs>): seq<Note> {
    if run == [] then []
    else
      var before, o := run[..|run| - 1], run[|run| - 1];
      var note := Processed(Entry(e, cooldown, before), o.breaching, cooldown, o.now, o.delivered).1;
      Sent(e, cooldown, before) + (if note.Some? then [Note(o.now, note.value)] else [])
  }

  /** The key fires exactly when the last evaluation breached, whether or not it was notified. */
  lemma FiringIsLastBreaching(e: RuleState, cooldown: nat, run: seq<Obs>)
    requires run != []
    ensures Entry(e, cooldown, run).firing == run[|run| - 1].breaching
  {
  }

  lemma {:induction false} LastNotifiedIsLastSent(cooldown: nat, run: seq<Obs>)
    ensures var sent := Sent(Initial, cooldown, run);
            Entry(Initial, cooldown, run).lastNotified == if sent == [] then None else Some(sent[|sent| - 1].at)
  {
    if run != [] {
      LastNotifiedIsLastSent(cooldown, run[..|run| - 1]);
    }
  }

  /**
   * With a positive cooldown any two notifications of a key are at least the cooldown apart, later ones later,
   * even when the clock steps back between evaluations.
   */
  lemma {:induction false} CooldownApart(cooldown: nat, run: seq<Obs>, i: nat, j: nat)
    requires cooldown > 0
    requires i < j < |Sent(Initial, cooldown, run)|
    ensures var sent := Sent(Initial, cooldown, run);
            sent[j].at - sent[i].at >= (j - i) * (cooldown * SECOND)
  {
    var before := run[..|run| - 1];
    var sent, earlier := Sent(Initial, cooldown, run), Sent(Initial, cooldown, before);
    if j < |earlier| {
      CooldownApart(cooldown, before, i, j);
    } else {
      LastNotifiedIsLastSent(cooldown, before);
      var gap := cooldown * SECOND;
      assert sent[j].at - sent[j - 1].at >= gap;
      if i < j - 1 {
        CooldownApart(cooldown, before, i, j - 1);
        assert (j - 1 - i) * gap + gap == (j - i) * gap;
      }
    }
  }

  /** The edges of the breaching sequence, seen from a key that does not fire. */
  ghost function Edges(run: seq<Obs>): seq<Note> {
    if run == [] then []
    else
      var before, o := run[..|run| - 1], run[|run| - 1];
      var edge := Edge(before != [] && before[|before| - 1].breaching, o.breaching);
      Edges(before) + (if edge.Some? then [Note(o.now, edge.value)] else [])
  }

  /** Without a cooldown and with every send delivered, the notifications are exactly the edges. */
  lemma {:induction false} NoCooldownSendsEdges(run: seq<Obs>)
    requires AllDelivered(run)
    ensures Sent(Initial, 0, run) == Edges(run)
  {
    if run != [] {
      var before := run[..|run| - 1];
      NoCooldownSendsEdges(before);
      if before != [] {
        FiringIsLastBreaching(Initial, 0, before);
      }
    }
  }

  ghost predicate Alternates(notes: seq<Note>) {
    forall i :: 0 <= i < |notes| ==> notes[i].kind == if i % 2 == 0 then Firing else Resolved
  }

  /** The edges alternate, starting with Firing; the key fires after an odd number of them. */
  lemma {:induction false} EdgesAlternate(run: seq<Obs>)
    ensures Alternates(Edges(run))
    ensures (run != [] && run[|run| - 1].breaching) <==> |Edges(run)| % 2 == 1
  {
    if run != [] {
      EdgesAlternate(run[..|run| - 1]);
    }
  }

  ghost predicate Subsequence(s: seq<Note>, t: seq<Note>) {
    s == []
    || (t != [] && (Subsequence(s, t[..|t| - 1])
                    || (s[|s| - 1] == t[|t| - 1] && Subsequence(s[..|s| - 1], t[..|t| - 1]))))
  }

  /** The notifications are always a subsequence of the edges: none is sent without an edge of its own, in order. */
  lemma {:induction false} SentIsSubsequence(cooldown: nat, run: seq<Obs>)
    ensures Subsequence(Sent(Initial, cooldown, run), Edges(run))
  {
    if run != [] {
      var before, o := run[..|run| - 1], run[|run| - 1];
      SentIsSubsequence(cooldown, before);
      if before != [] {
        FiringIsLastBreaching(Initial, cooldown, before);
      }
      var s, t := Sent(Initial, cooldown, before), Edges(before);
      var note := Processed(Entry(Initial, cooldown, before), o.breaching, cooldown, o.now, o.delivered).1;
      var edge := Edge(before != [] && before[|before| - 1].breaching, o.breaching);
      assert note.Some? ==> edge == note;
      assert Sent(Initial, cooldown, run) == s + if note.Some? then [Note(o.now, note.value)] else [];
      assert Edges(run) == t + if edge.Some? then [Note(o.now, edge.value)] else [];
      hide Processed, Edge, Sent, Edges;
      assert s + [] == s && t + [] == t;
      if edge.Some? {
        OneMoreEdge(s, t, Note(o.now, edge.value));
      }
    }
  }

  lemma OneMoreEdge(s: seq<Note>, t: seq<Note>, n: Note)
    requires Subsequence(s, t)
    ensures Subsequence(s, t + [n]) && Subsequence(s + [n], t + [n])
  {
    assert (t + [n])[..|t|] == t && (s + [n])[..|s|] == s;
  }

  /** In particular every notification is an edge. */
  lemma {:induction false} SentAreEdges(cooldown: nat, run: seq<Obs>, n: Note)
    requires n in Sent(Initial, cooldown, run)
    ensures n in Edges(run)
  {
    var before := run[..|run| - 1];
    if n in Sent(Initial, cooldown, before) {
      SentAreEdges(cooldown, before, n);
    } else if before != [] {
      FiringIsLastBreaching(Initial, cooldown, before);
    }
  }

  ghost predicate AllDelivered(run: seq<Obs>) {
    forall i :: 0 <= i < |run| ==> run[i].delivered
  }

  /** With a cooldown a resolution inside it is never sent, and two Firing messages follow each other. */
  lemma ResolutionSwallowed(cooldown: nat)
    requires cooldown > 0
    ensures var run := [Obs(true, 0, true), Obs(false, 0, true), Obs(true, cooldown * SECOND, true)];
            Sent(Initial, cooldown, run) == [Note(0, Firing), Note(cooldown * SECOND, Firing)]
  {
    var a, b, c := Obs(true, 0, true), Obs(false, 0, true), Obs(true, cooldown * SECOND, true);
    var run := [a, b, c];
    assert [a][..0] == [] && [a, b][..1] == [a] && run[..2] == [a, b];
    assert Entry(Initial, cooldown, [a]) == RuleState(true, Some(0));
    assert Sent(Initial, cooldown, [a]) == [Note(0, Firing)];
    assert Entry(Initial, cooldown, [a, b]) == RuleState(false, Some(0));
    assert Sent(Initial, cooldown, [a, b]) == [Note(0, Firing)];
  }

  /** Notifications that are all delivered alternate in all runs exactly when there is no cooldown. */
  lemma AlternatesExactly(cooldown: nat)
    ensures (forall run: seq<Obs> :: AllDelivered(run) ==> Alternates(Sent(Initial, cooldown, run))) <==> cooldown == 0
  {
    if cooldown == 0 {
      forall run: seq<Obs> | AllDelivered(run) ensures Alternates(Sent(Initial, 0, run)) {
        NoCooldownSendsEdges(run);
        EdgesAlternate(run);
      }
    } else {
      var run := [Obs(true, 0, true), Obs(false, 0, true), Obs(true, cooldown * SECOND, true)];
      ResolutionSwallowed(cooldown);
      assert AllDelivered(run) && Sent(Initial, cooldown, run)[1].kind == Firing;
      assert !Alternates(Sent(Initial, cooldown, run));
    }
  }

  /**
   * The next evaluation is notified exactly when it changes the condition, a notifier takes the message, and the last
   * notification is no less than the cooldown ago.
   */
  lemma NotifiesExactly(cooldown: nat, run: seq<Obs>, o: Obs)
    ensures var (sent, was) := (Sent(Initial, cooldown, run), run != [] && run[|run| - 1].breaching);
            Sent(Initial, cooldown, run + [o])
            == if && o.breaching != was && o.delivered
                  && (sent == [] || cooldown == 0 || o.now - sent[|sent| - 1].at >= cooldown * 1_000_000_000)
               then sent + [Note(o.now, if o.breaching then Firing else Resolved)] else sent
  {
    var sent, entry := Sent(Initial, cooldown, run), Entry(Initial, cooldown, run);
    assert (run + [o])[..|run|] == run;
    LastNotifiedIsLastSent(cooldown, run);
    if run != [] {
      FiringIsLastBreaching(Initial, cooldown, run);
    }
    var note := Processed(entry, o.breaching, cooldown, o.now, o.delivered).1;
    assert Sent(Initial, cooldown, run + [o]) == sent + if note.Some? then [Note(o.now, note.value)] else [];
    hide Sent, Entry;
    assert cooldown > 0 ==> cooldown * SECOND > 0;
    assert sent + [] == sent;
  }
}
