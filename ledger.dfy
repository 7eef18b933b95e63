/**
 * The ledger of one user: running total, goal and newest-first entry list,
 * with the guarded updates the tracker applies to it, the values the display
 * derives from it, and what the per-user storage keys hold.
 */
module Ledgers {
  import opened Js

  /** One recorded income: `{id, amount, source, date}`; `id` and `date` come from the clock. */
  datatype Entry = Entry(id: int, amount: real, source: string, date: string)

  /** The tracker's `currentAmount`, `goal` and `entries` (newest first). */
  datatype Ledger = Ledger(currentAmount: real, goal: real, entries: seq<Entry>)

  const DefaultAmount: real := 0.0
  const DefaultGoal: real := 1000.0

  /** How many entries the history view shows. */
  const RecentLimit: nat := 10

  /** The values the tracker's constructor starts from. */
  function Initial(): (l: Ledger)
    ensures l.goal > 0.0
    ensures l.entries == [] && l.currentAmount == Total(l.entries)
  {
    Ledger(DefaultAmount, DefaultGoal, [])
  }

  /** Sum of the amounts of a list of entries. */
  function Total(entries: seq<Entry>): real
  {
    if entries == [] then 0.0 else entries[0].amount + Total(entries[1..])
  }

  lemma {:induction false} TotalAppend(a: seq<Entry>, b: seq<Entry>)
    ensures Total(a + b) == Total(a) + Total(b)
  {
    if a == [] {
      assert a + b == b;
    } else {
      assert (a + b)[1..] == a[1..] + b;
      TotalAppend(a[1..], b);
    }
  }

  // ---------------------------------------------------------------------------
  // Storage form

  /**
   * What the three keys `<user>_currentAmount`, `<user>_goal` and
   * `<user>_entries` read back as: the numbers after `parseFloat`, the list
   * after `JSON.parse` (`None` for a missing key).
   */
  datatype Stored = Stored(amount: Number, goal: Number, entries: Option<seq<Entry>>)

  /** No key of the namespace present. */
  const Missing: Stored := Stored(NaN, NaN, None)

  /**
   * `loadUserData`: each stored value is used when truthy, otherwise its
   * default (0, 1000, []). The goal can never come out zero.
   */
  function Load(s: Stored): (l: Ledger)
    ensures l.goal != 0.0
    ensures !Truthy(s.amount) ==> l.currentAmount == DefaultAmount
    ensures !Truthy(s.goal) ==> l.goal == DefaultGoal
    ensures s.entries.None? ==> l.entries == []
    ensures Truthy(s.amount) ==> l.currentAmount == s.amount.value
    ensures Truthy(s.goal) ==> l.goal == s.goal.value
    ensures s.entries.Some? ==> l.entries == s.entries.value
  {
    Ledger(OrElse(s.amount, DefaultAmount), OrElse(s.goal, DefaultGoal),
           if s.entries.Some? then s.entries.value else [])
  }

  /** `saveData`: the three values written under the user's namespace. */
  function Save(l: Ledger): (s: Stored)
    ensures s.amount.Finite? && s.goal.Finite? && s.entries == Some(l.entries)
    ensures l.goal != 0.0 ==> Load(s) == l
  {
    Stored(Finite(l.currentAmount), Finite(l.goal), Some(l.entries))
  }

  /**
   * Whatever a namespace holds, even values written by something else, one
   * load fixes it: saving the loaded ledger and loading again changes nothing,
   * and the saved form is read back key for key.
   */
  lemma ReloadStable(s: Stored)
    ensures Load(Save(Load(s))) == Load(s)
    ensures Save(Load(Save(Load(s)))) == Save(Load(s))
  {
  }

  /** A namespace with nothing stored loads as the constructor's initial values. */
  lemma LoadMissing()
    ensures Load(Missing) == Initial()
  {
  }

  // ---------------------------------------------------------------------------
  // Updates

  /** `addIncome`'s guard `if (!amount || !source) return;`: a negative amount passes it. */
  predicate AcceptsIncome(amount: Number, source: string)
  {
    Truthy(amount) && source != ""
  }

  /**
   * `addIncome` after its DOM reads: a rejected input changes nothing; an
   * accepted one puts a new entry in front of the old ones and adds its
   * amount to the running total.
   */
  function AddIncome(l: Ledger, amount: Number, source: string, id: int, date: string): (r: Ledger)
    ensures !AcceptsIncome(amount, source) ==> r == l
    ensures AcceptsIncome(amount, source) ==>
      && |r.entries| == |l.entries| + 1
      && r.entries[0] == Entry(id, amount.value, source, date)
      && r.entries[1..] == l.entries
      && r.currentAmount == l.currentAmount + amount.value
    ensures r.goal == l.goal
    ensures r.currentAmount - Total(r.entries) == l.currentAmount - Total(l.entries)
  {
    if !Truthy(amount) || source == "" then l
    else
      var e := Entry(id, amount.value, source, date);
      assert ([e] + l.entries)[1..] == l.entries;
      Ledger(l.currentAmount + amount.value, l.goal, [e] + l.entries)
  }

  /**
   * The guard only rejects zero and NaN: a negative amount is recorded and
   * lowers the total.
   */
  lemma NegativeAmountAccepted(l: Ledger, a: real, source: string, id: int, date: string)
    requires a < 0.0 && source != ""
    ensures AddIncome(l, Finite(a), source, id, date).currentAmount < l.currentAmount
    ensures AddIncome(l, Finite(a), source, id, date).entries[0] == Entry(id, a, source, date)
  {
  }

  /** `updateGoal`'s guard `newGoal && newGoal > 0`. */
  predicate AcceptsGoal(newGoal: Number)
  {
    Truthy(newGoal) && newGoal.value > 0.0
  }

  /**
   * `updateGoal` after its DOM read: only a positive goal replaces the old one;
   * the total and the entries are never touched.
   */
  function UpdateGoal(l: Ledger, newGoal: Number): (r: Ledger)
    ensures r.currentAmount == l.currentAmount && r.entries == l.entries
    ensures newGoal.Finite? && newGoal.value > 0.0 ==> r.goal == newGoal.value
    ensures !(newGoal.Finite? && newGoal.value > 0.0) ==> r == l
    ensures l.goal > 0.0 ==> r.goal > 0.0
  {
    if AcceptsGoal(newGoal) then l.(goal := newGoal.value) else l
  }

  // ---------------------------------------------------------------------------
  // Sequences of additions

  /** One submission of the income form. */
  datatype Income = Income(amount: Number, source: string, id: int, date: string)

  predicate Accepted(x: Income)
  {
    AcceptsIncome(x.amount, x.source)
  }

  /** The entry an accepted submission records. */
  function EntryOf(x: Income): Entry
    requires Accepted(x)
  {
    Entry(x.id, x.amount.value, x.source, x.date)
  }

  /** The submissions applied one after another, first to last. */
  function AddAll(l: Ledger, xs: seq<Income>): Ledger
    decreases |xs|
  {
    if xs == [] then l
    else AddAll(AddIncome(l, xs[0].amount, xs[0].source, xs[0].id, xs[0].date), xs[1..])
  }

  /** The entries the accepted submissions of `xs` record, newest first. */
  function Recorded(xs: seq<Income>): seq<Entry>
  {
    if xs == [] then []
    else Recorded(xs[1..]) + (if Accepted(xs[0]) then [EntryOf(xs[0])] else [])
  }

  /**
   * Applying a run of submissions prepends exactly the accepted ones, newest
   * first, adds exactly their amounts to the total and leaves the goal alone.
   */
  lemma {:induction false} AddAllEffect(l: Ledger, xs: seq<Income>)
    ensures AddAll(l, xs) == Ledger(l.currentAmount + Total(Recorded(xs)), l.goal, Recorded(xs) + l.entries)
    decreases |xs|
  {
    if xs != [] {
      var x, rest := xs[0], xs[1..];
      var l1 := AddIncome(l, x.amount, x.source, x.id, x.date);
      var added := if Accepted(x) then [EntryOf(x)] else [];
      assert Recorded(xs) == Recorded(rest) + added;
      assert l1.goal == l.goal;
      assert l1.entries == added + l.entries by {
        if Accepted(x) {
          assert l1.entries == [l1.entries[0]] + l1.entries[1..];
        }
      }
      assert l1.currentAmount == l.currentAmount + Total(added);
      AddAllEffect(l1, rest);
      TotalAppend(Recorded(rest), added);
      assert Recorded(rest) + (added + l.entries) == Recorded(xs) + l.entries;
    }
  }

  /**
   * The running total agrees with the entries after any run of submissions
   * from a ledger where it agreed, in particular from the initial one.
   */
  lemma BalanceMatchesEntries(l: Ledger, xs: seq<Income>)
    requires l.currentAmount == Total(l.entries)
    ensures AddAll(l, xs).currentAmount == Total(AddAll(l, xs).entries)
  {
    AddAllEffect(l, xs);
    TotalAppend(Recorded(xs), l.entries);
  }

  /** When every submission is accepted, entry `i` of the result is the `i`-th most recent submission. */
  lemma {:induction false} RecordedNewestFirst(xs: seq<Income>)
    requires forall k :: 0 <= k < |xs| ==> Accepted(xs[k])
    ensures |Recorded(xs)| == |xs|
    ensures forall i :: 0 <= i < |xs| ==> Recorded(xs)[i] == EntryOf(xs[|xs| - 1 - i])
  {
    if xs != [] {
      RecordedNewestFirst(xs[1..]);
      assert Recorded(xs) == Recorded(xs[1..]) + [EntryOf(xs[0])];
      forall i | 0 <= i < |xs|
        ensures Recorded(xs)[i] == EntryOf(xs[|xs| - 1 - i])
      {
        if i < |xs| - 1 {
          assert xs[1..][|xs| - 2 - i] == xs[|xs| - 1 - i];
        }
      }
    }
  }

  // ---------------------------------------------------------------------------
  // Derived values and views

  function Min(a: real, b: real): real { if a <= b then a else b }
  function Max(a: real, b: real): real { if a >= b then a else b }

  /**
   * The percentage the gauge shows, `min(current / goal * 100, 100)`. The
   * goal is never zero in the tracker (see `Load` and `UpdateGoal`).
   */
  function Percentage(l: Ledger): (p: real)
    requires l.goal != 0.0
    ensures p <= 100.0
    ensures p < 100.0 ==> p * l.goal == l.currentAmount * 100.0
    ensures l.goal > 0.0 ==> (p == 100.0 <==> l.currentAmount >= l.goal)
    ensures l.goal > 0.0 && l.currentAmount >= 0.0 ==> p >= 0.0
    ensures p == 100.0 ==> l.currentAmount / l.goal * 100.0 >= 100.0
  {
    var raw := l.currentAmount / l.goal * 100.0;
    assert raw * l.goal == l.currentAmount * 100.0;
    assert l.goal > 0.0 ==> (raw >= 100.0 <==> l.currentAmount >= l.goal) by {
      if l.goal > 0.0 {
        assert raw * l.goal - 100.0 * l.goal == (l.currentAmount - l.goal) * 100.0;
        SignOfProduct(raw - 100.0, l.goal);
      }
    }
    Min(raw, 100.0)
  }

  /** With a positive factor, a product has the sign of its other factor. */
  lemma SignOfProduct(a: real, g: real)
    requires g > 0.0
    ensures a >= 0.0 <==> a * g >= 0.0
  {
    if a < 0.0 {
      assert a * g < 0.0;
    }
  }

  /** The amount still to save, `max(goal - current, 0)`. */
  function Remaining(l: Ledger): (r: real)
    ensures r >= 0.0
    ensures r == 0.0 <==> l.currentAmount >= l.goal
    ensures r > 0.0 ==> l.currentAmount + r == l.goal
  {
    Max(l.goal - l.currentAmount, 0.0)
  }

  /**
   * The display says "Goal Reached" (nothing remaining) exactly when the
   * gauge is full.
   */
  lemma GoalReachedWhenFull(l: Ledger)
    requires l.goal > 0.0
    ensures Remaining(l) == 0.0 <==> Percentage(l) == 100.0
  {
  }

  /** The worked figures: 250 of 1000 is 25% with 750 to go; 1000 and 1500 of 1000 are both full with nothing to go. */
  lemma ProgressExamples()
    ensures Percentage(Ledger(250.0, 1000.0, [])) == 25.0 && Remaining(Ledger(250.0, 1000.0, [])) == 750.0
    ensures Percentage(Ledger(1000.0, 1000.0, [])) == 100.0 && Remaining(Ledger(1000.0, 1000.0, [])) == 0.0
    ensures Percentage(Ledger(1500.0, 1000.0, [])) == 100.0 && Remaining(Ledger(1500.0, 1000.0, [])) == 0.0
  {
  }

  /** `entries.slice(0, 10)`: the first ten entries (fewer if there are fewer), in order. */
  function Recent(entries: seq<Entry>): (r: seq<Entry>)
    ensures |r| == if |entries| < RecentLimit then |entries| else RecentLimit
    ensures forall i :: 0 <= i < |r| ==> r[i] == entries[i]
  {
    if |entries| <= RecentLimit then entries else entries[..RecentLimit]
  }

  /**
   * After a run of at least ten accepted submissions from the initial ledger,
   * the history view shows the ten most recent ones, newest first.
   */
  lemma RecentAfterAdds(xs: seq<Income>)
    requires |xs| >= RecentLimit
    requires forall k :: 0 <= k < |xs| ==> Accepted(xs[k])
    ensures |Recent(AddAll(Initial(), xs).entries)| == RecentLimit
    ensures forall i :: 0 <= i < RecentLimit ==>
      Recent(AddAll(Initial(), xs).entries)[i] == EntryOf(xs[|xs| - 1 - i])
  {
    AddAllEffect(Initial(), xs);
    RecordedNewestFirst(xs);
    assert AddAll(Initial(), xs).entries == Recorded(xs);
  }

  /** The labels of the known income sources. */
  const SourceLabels: map<string, string> :=
    map["amazon-flex" := "Amazon Flex", "doordash" := "DoorDash", "roadie" := "Roadie", "other" := "Other"]

  /**
   * `formatSource`: `sources[source] || source`. Every label is non-empty, so
   * a known key always shows its label and anything else shows verbatim.
   */
  function FormatSource(source: string): (shown: string)
    ensures source in SourceLabels ==> shown == SourceLabels[source]
    ensures source !in SourceLabels ==> shown == source
    ensures shown == "" <==> source == ""
  {
    // an absent key reads as `undefined`, which is falsy like ""
    var found := if source in SourceLabels then SourceLabels[source] else "";
    if found != "" then found else source
  }
}
