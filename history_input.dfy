/**
 * `HistoryInput`: a text input with an autocomplete list drawn from one
 * bank's attempt history. Typing filters the history case-insensitively;
 * the list shows one entry per distinct value, and clicking an entry
 * selects the value of its first (most recent) attempt.
 */
module HistoryInputComponent {
  import opened Wrappers
  import opened Text
  import opened Seqs
  import opened Verification
  import opened History

  /** The test of `handleInputChange`: the field is present and contains the input, ignoring case. */
  function MatchesInput(f: Field, input: string): Attempt -> bool {
    a => FieldOf(a, f).Some? && Contains(ToLower(FieldOf(a, f).value), ToLower(input))
  }

  /** The attempts whose field is present at all. */
  function HasField(f: Field): Attempt -> bool {
    a => FieldOf(a, f).Some?
  }

  /** The filtered list `handleInputChange` shows for an input. */
  function FilterByInput(h: seq<Attempt>, f: Field, input: string): (r: seq<Attempt>)
    ensures forall a :: a in r <==>
      a in h && FieldOf(a, f).Some? && Contains(ToLower(FieldOf(a, f).value), ToLower(input))
  {
    Filter(h, MatchesInput(f, input))
  }

  /** An empty input keeps, in order, every attempt that has the field, empty values included. */
  lemma EmptyInputKeepsFieldHolders(h: seq<Attempt>, f: Field)
    ensures FilterByInput(h, f, "") == Filter(h, HasField(f))
  {
    forall a | a in h
      ensures MatchesInput(f, "")(a) == HasField(f)(a)
    {
      assert ToLower("") == "";
      if FieldOf(a, f).Some? {
        assert StartsWith(ToLower(FieldOf(a, f).value), "");
      }
    }
    FilterSameTest(h, MatchesInput(f, ""), HasField(f));
  }

  /** The filter ignores the case of the input: typing it in lower case changes nothing. */
  lemma FilterIgnoresInputCase(h: seq<Attempt>, f: Field, input: string)
    ensures FilterByInput(h, f, ToLower(input)) == FilterByInput(h, f, input)
  {
    assert ToLower(ToLower(input)) == ToLower(input);
    FilterSameTest(h, MatchesInput(f, ToLower(input)), MatchesInput(f, input));
  }

  /** `groups` holds, for each non-empty value of the field in `s`, the attempts of `s` with that value. */
  ghost predicate Grouped(groups: map<string, seq<Attempt>>, s: seq<Attempt>, f: Field) {
    && (forall v :: v in groups <==> v != "" && exists a :: a in s && FieldOf(a, f) == Some(v))
    && (forall v :: v in groups ==> groups[v] == AttemptsByValue(s, f, v))
  }

  /** Appending one attempt adds it to its own value's matches only. */
  lemma AttemptsByValueSnoc(s: seq<Attempt>, a: Attempt, f: Field, v: string)
    ensures AttemptsByValue(s + [a], f, v) == AttemptsByValue(s, f, v) + (if FieldOf(a, f) == Some(v) then [a] else [])
  {
    AttemptsByValueAppend(s, [a], f, v);
    assert [a][1..] == [];
  }

  /** The values present after one more attempt: the earlier ones and the attempt's own, if non-empty. */
  lemma ValuesSnoc(s: seq<Attempt>, a: Attempt, f: Field, v: string)
    ensures (v != "" && exists b :: b in s + [a] && FieldOf(b, f) == Some(v)) <==>
      (v != "" && exists b :: b in s && FieldOf(b, f) == Some(v)) || (v != "" && FieldOf(a, f) == Some(v))
  {
    if v != "" && FieldOf(a, f) == Some(v) {
      assert a in s + [a];
    }
    if exists b :: b in s + [a] && FieldOf(b, f) == Some(v) {
      var b :| b in s + [a] && FieldOf(b, f) == Some(v);
      if b != a {
        assert b in s;
      }
    }
  }

  /** One step of the reduce keeps the grouping exact. */
  lemma GroupStep(before: map<string, seq<Attempt>>, after: map<string, seq<Attempt>>, s: seq<Attempt>, a: Attempt, f: Field)
    requires Grouped(before, s, f)
    requires !Truthy(FieldOf(a, f)) ==> after == before
    requires Truthy(FieldOf(a, f)) ==>
      var key := FieldOf(a, f).value;
      after == before[key := (if key in before then before[key] else []) + [a]]
    ensures Grouped(after, s + [a], f)
  {
    forall v
      ensures v in after <==> v != "" && exists b :: b in s + [a] && FieldOf(b, f) == Some(v)
    {
      ValuesSnoc(s, a, f, v);
    }
    forall v | v in after
      ensures after[v] == AttemptsByValue(s + [a], f, v)
    {
      AttemptsByValueSnoc(s, a, f, v);
      if v !in before {
        FilterNone(s, HasValue(f, v));
      }
    }
  }

  /** `GroupStep` for the attempt at index `i`: the grouping of a prefix grows by one. */
  lemma GroupStepAt(before: map<string, seq<Attempt>>, after: map<string, seq<Attempt>>, s: seq<Attempt>, i: nat, f: Field)
    requires i < |s|
    requires Grouped(before, s[..i], f)
    requires !Truthy(FieldOf(s[i], f)) ==> after == before
    requires Truthy(FieldOf(s[i], f)) ==>
      var key := FieldOf(s[i], f).value;
      after == before[key := (if key in before then before[key] else []) + [s[i]]]
    ensures Grouped(after, s[..i + 1], f)
  {
    GroupStep(before, after, s[..i], s[i], f);
    assert s[..i + 1] == s[..i] + [s[i]];
  }

  /** A grouping has some group exactly when some attempt has a non-empty value. */
  lemma GroupedNonEmpty(groups: map<string, seq<Attempt>>, s: seq<Attempt>, f: Field)
    requires Grouped(groups, s, f)
    ensures |groups| > 0 <==> exists a :: a in s && Truthy(FieldOf(a, f))
  {
    if exists a :: a in s && Truthy(FieldOf(a, f)) {
      var a :| a in s && Truthy(FieldOf(a, f));
      assert FieldOf(a, f).value in groups;
    }
    if |groups| > 0 {
      var v :| v in groups;
      var a :| a in s && FieldOf(a, f) == Some(v);
      assert Truthy(FieldOf(a, f));
    }
  }

  /**
   * The `groupedHistory` reduce: attempts with an empty or missing value are
   * dropped, and each value's group collects its attempts in list order.
   */
  method GroupByValue(filtered: seq<Attempt>, f: Field) returns (groups: map<string, seq<Attempt>>)
    ensures forall v :: v in groups <==> v != "" && exists a :: a in filtered && FieldOf(a, f) == Some(v)
    ensures forall v :: v in groups ==> groups[v] == AttemptsByValue(filtered, f, v)
    ensures |groups| > 0 <==> exists a :: a in filtered && Truthy(FieldOf(a, f))
  {
    groups := map[];
    for i := 0 to |filtered|
      invariant Grouped(groups, filtered[..i], f)
    {
      var attempt := filtered[i];
      var attemptValue := FieldOf(attempt, f);
      ghost var before := groups;
      if Truthy(attemptValue) {
        var key := attemptValue.value;
        if key !in groups {
          groups := groups[key := []];
        }
        groups := groups[key := groups[key] + [attempt]];
      }
      GroupStepAt(before, groups, filtered, i, f);
    }
    assert filtered[..|filtered|] == filtered;
    GroupedNonEmpty(groups, filtered, f);
  }

  /**
   * A group's first attempt is the most recent attempt in the history with
   * that value, whatever the input that filtered it.
   */
  lemma GroupHeadIsMostRecent(h: seq<Attempt>, f: Field, input: string, v: string, i: nat)
    requires i < |h| && FieldOf(h[i], f) == Some(v)
    requires forall j :: 0 <= j < i ==> FieldOf(h[j], f) != Some(v)
    requires MatchesInput(f, input)(h[i])
    ensures |AttemptsByValue(FilterByInput(h, f, input), f, v)| > 0
    ensures AttemptsByValue(FilterByInput(h, f, input), f, v)[0] == h[i]
  {
    FilterThenFilter(h, MatchesInput(f, input), HasValue(f, v));
    FilterHead(h, HasValue(f, v), i);
  }

  /** The component's state; `changes` records the values handed to `onChange`. */
  class HistoryInput {
    const bank: Bank
    const field: Field
    var history: seq<Attempt>
    var filteredHistory: seq<Attempt>
    var showDropdown: bool
    var changes: seq<string>

    constructor (bank: Bank, field: Field)
      ensures this.bank == bank && this.field == field
      ensures history == [] && filteredHistory == [] && !showDropdown && changes == []
    {
      this.bank := bank;
      this.field := field;
      history := [];
      filteredHistory := [];
      showDropdown := false;
      changes := [];
    }

    /** `loadHistory`: read the bank's history and show all of it. */
    method LoadHistory(store: VerificationHistory)
      modifies this
      ensures history == store.GetHistory(bank) && filteredHistory == history
      ensures showDropdown == old(showDropdown) && changes == old(changes)
    {
      var allAttempts := store.GetHistory(bank);
      history := allAttempts;
      filteredHistory := allAttempts;
    }

    /** `handleInputChange`: pass the value on, filter the history by it, open the list. */
    method HandleInputChange(newValue: string)
      modifies this
      ensures changes == old(changes) + [newValue]
      ensures filteredHistory == FilterByInput(history, field, newValue)
      ensures showDropdown
      ensures history == old(history)
    {
      changes := changes + [newValue];
      var filtered := Filter(history, MatchesInput(field, newValue));
      filteredHistory := filtered;
      showDropdown := true;
    }

    /** `handleSelectHistory`: an attempt with an empty or missing value does nothing. */
    method HandleSelectHistory(attempt: Attempt)
      modifies this
      ensures Truthy(FieldOf(attempt, field)) ==>
        changes == old(changes) + [FieldOf(attempt, field).value] && !showDropdown
      ensures !Truthy(FieldOf(attempt, field)) ==>
        changes == old(changes) && showDropdown == old(showDropdown)
      ensures history == old(history) && filteredHistory == old(filteredHistory)
    {
      var selectedValue := FieldOf(attempt, field);
      if Truthy(selectedValue) {
        changes := changes + [selectedValue.value];
        showDropdown := false;
      }
    }

    /** The dropdown renders only when it is open and at least one group exists. */
    function DropdownVisible(groups: map<string, seq<Attempt>>): (r: bool)
      reads this
      ensures r <==> showDropdown && exists v :: v in groups
    {
      showDropdown && |groups| > 0
    }
  }
}
