/**
 * `VerificationHistory`: the per-bank log of verification attempts kept in
 * the browser's local storage, most recent first and capped at 50 entries.
 * Local storage is a map from key to stored value; a value that does not
 * parse as a list reads as an empty history.
 */
module History {
  import opened Wrappers
  import opened Text
  import opened Seqs
  import opened Verification

  datatype AttemptStatus = Pending | Succeeded | Failed

  /** `VerificationAttempt`. */
  datatype Attempt = Attempt(
    id: string,
    bank: Bank,
    transactionId: Option<string>,
    accountNumber: Option<string>,
    timestamp: int,
    status: AttemptStatus,
    errorType: Option<string>)

  /** The caller's part of an attempt: everything but id, timestamp and bank. */
  datatype AttemptDraft = AttemptDraft(
    transactionId: Option<string>,
    accountNumber: Option<string>,
    status: AttemptStatus,
    errorType: Option<string>)

  /** Which input an autocomplete list is about. */
  datatype Field = TransactionIdField | AccountNumberField

  function FieldOf(a: Attempt, f: Field): Option<string> {
    match f
    case TransactionIdField => a.transactionId
    case AccountNumberField => a.accountNumber
  }

  /** A local-storage value: a parsed list of attempts, or text that does not parse. */
  datatype Stored = Entries(attempts: seq<Attempt>) | Unparsable

  const MaxAttempts := 50
  const MaxSuggestions := 10

  function StorageKey(bank: Bank): string {
    BankName(bank) + "_verification_history"
  }

  /** Each bank has a key of its own. */
  lemma StorageKeysDistinct(b1: Bank, b2: Bank)
    requires b1 != b2
    ensures StorageKey(b1) != StorageKey(b2)
  {
    assert StorageKey(b1)[0] == BankName(b1)[0];
    assert StorageKey(b2)[0] == BankName(b2)[0];
  }

  /** The attempt `addAttempt` stores: the draft stamped with id, time and bank. */
  function NewAttempt(bank: Bank, draft: AttemptDraft, id: string, now: int): Attempt {
    Attempt(id, bank, draft.transactionId, draft.accountNumber, now, draft.status, draft.errorType)
  }

  /** `unshift` then `slice(0, 50)`. */
  function Prepend(a: Attempt, h: seq<Attempt>): (r: seq<Attempt>)
    ensures |r| == if |h| + 1 < MaxAttempts then |h| + 1 else MaxAttempts
    ensures r[0] == a
    ensures forall i :: 1 <= i < |r| ==> r[i] == h[i - 1]
  {
    Take([a] + h, MaxAttempts)
  }

  /** Only the oldest entry falls off, and only when the list was full. */
  lemma PrependDropsOnlyOldest(a: Attempt, h: seq<Attempt>)
    requires |h| <= MaxAttempts
    ensures |h| < MaxAttempts ==> Prepend(a, h) == [a] + h
    ensures |h| == MaxAttempts ==> Prepend(a, h) == [a] + h[..|h| - 1]
  {
    if |h| == MaxAttempts {
      assert Prepend(a, h) == [a] + h[..|h| - 1];
    } else {
      assert Prepend(a, h) == [a] + h;
    }
  }

  /** `findIndex` by id: the first matching position, or -1. */
  function FindIndex(h: seq<Attempt>, id: string): (k: int)
    ensures -1 <= k < |h|
    ensures k == -1 <==> forall i :: 0 <= i < |h| ==> h[i].id != id
    ensures k >= 0 ==> h[k].id == id && forall j :: 0 <= j < k ==> h[j].id != id
    decreases |h|
  {
    if h == [] then -1
    else if h[0].id == id then 0
    else
      var k := FindIndex(h[1..], id);
      if k == -1 then -1 else k + 1
  }

  /**
   * The list `updateAttemptStatus` writes back, or None when no attempt has
   * the id (nothing is written). Only the first attempt with the id changes:
   * its status, and its error type when a non-empty one is given.
   */
  function UpdatedHistory(h: seq<Attempt>, id: string, status: AttemptStatus, errorType: Option<string>)
    : (r: Option<seq<Attempt>>)
    ensures r.None? <==> forall i :: 0 <= i < |h| ==> h[i].id != id
    ensures r.Some? ==>
      var k := FindIndex(h, id);
      && |r.value| == |h|
      && (forall i :: 0 <= i < |h| && i != k ==> r.value[i] == h[i])
      && r.value[k] == h[k].(status := status, errorType := if Truthy(errorType) then errorType else h[k].errorType)
  {
    var k := FindIndex(h, id);
    if k < 0 then None
    else Some(h[k := h[k].(status := status, errorType := if Truthy(errorType) then errorType else h[k].errorType)])
  }

  /** The non-empty values of the chosen field, in history order (`map` then `filter(!!val)`). */
  function Values(h: seq<Attempt>, f: Field): (r: seq<string>)
    ensures forall i :: 0 <= i < |r| ==> r[i] != ""
    ensures forall x :: x in r <==> x != "" && exists i :: 0 <= i < |h| && FieldOf(h[i], f) == Some(x)
    decreases |h|
  {
    if h == [] then []
    else
      var rest := Values(h[1..], f);
      assert forall x :: (exists i :: 0 <= i < |h[1..]| && FieldOf(h[1..][i], f) == Some(x))
                     <==> (exists i :: 1 <= i < |h| && FieldOf(h[i], f) == Some(x));
      (if Truthy(FieldOf(h[0], f)) then [FieldOf(h[0], f).value] else []) + rest
  }

  /** `getUniqueValues` on a history: at most ten distinct non-empty values, most recent first. */
  function UniqueValues(h: seq<Attempt>, f: Field): (r: seq<string>)
    ensures |r| <= MaxSuggestions
    ensures forall i :: 0 <= i < |r| ==> r[i] != "" && r[i] in Values(h, f)
    ensures forall i, j :: 0 <= i < j < |r| ==> r[i] != r[j]
    ensures |r| < MaxSuggestions ==> forall x :: x in Values(h, f) ==> x in r
  {
    var d := Distinct(Values(h, f));
    var r := Take(d, MaxSuggestions);
    assert forall i :: 0 <= i < |r| ==> r[i] == d[i] && d[i] in d;
    r
  }

  /** The values of a concatenated history are those of the newer part, then those of the older part. */
  lemma {:induction false} ValuesAppend(newer: seq<Attempt>, older: seq<Attempt>, f: Field)
    ensures Values(newer + older, f) == Values(newer, f) + Values(older, f)
    decreases |newer|
  {
    if newer == [] {
      assert newer + older == older;
    } else {
      assert (newer + older)[0] == newer[0];
      assert (newer + older)[1..] == newer[1..] + older;
      ValuesAppend(newer[1..], older, f);
    }
  }

  /** A value the suggestions leave out is older than all ten of them: they are the ten most recent. */
  lemma UniqueValuesMostRecent(h: seq<Attempt>, f: Field, x: string)
    requires x in Values(h, f) && x !in UniqueValues(h, f)
    ensures |UniqueValues(h, f)| == MaxSuggestions
    ensures forall y :: y in UniqueValues(h, f) ==> FirstIndex(Values(h, f), y) < FirstIndex(Values(h, f), x)
  {
    var v := Values(h, f);
    var d := Distinct(v);
    var r := UniqueValues(h, f);
    assert x in d;
    var k :| 0 <= k < |d| && d[k] == x;
    assert k >= MaxSuggestions;
    forall y | y in r
      ensures FirstIndex(v, y) < FirstIndex(v, x)
    {
      var i :| 0 <= i < |r| && r[i] == y;
      DistinctOrder(v, i, k);
    }
  }

  /** The suggestions come in the order of each value's most recent use. */
  lemma UniqueValuesOrder(h: seq<Attempt>, f: Field, i: nat, j: nat)
    requires i < j < |UniqueValues(h, f)|
    ensures FirstIndex(Values(h, f), UniqueValues(h, f)[i]) < FirstIndex(Values(h, f), UniqueValues(h, f)[j])
  {
    DistinctOrder(Values(h, f), i, j);
  }

  /** The exact-match test of `getAttemptsByValue`. */
  function HasValue(f: Field, v: string): Attempt -> bool {
    a => FieldOf(a, f) == Some(v)
  }

  /** `getAttemptsByValue` on a history: an order-preserving filter on exact equality. */
  function AttemptsByValue(h: seq<Attempt>, f: Field, v: string): (r: seq<Attempt>)
    ensures forall a :: a in r <==> a in h && FieldOf(a, f) == Some(v)
  {
    Filter(h, HasValue(f, v))
  }

  /** The matches keep history order: those from newer entries come first. */
  lemma AttemptsByValueAppend(newer: seq<Attempt>, older: seq<Attempt>, f: Field, v: string)
    ensures AttemptsByValue(newer + older, f, v) == AttemptsByValue(newer, f, v) + AttemptsByValue(older, f, v)
  {
    FilterAppend(newer, older, HasValue(f, v));
  }

  /** Local storage, seen through the history operations. */
  class VerificationHistory {
    var storage: map<string, Stored>

    constructor (initial: map<string, Stored>)
      ensures storage == initial
    {
      storage := initial;
    }

    /** `getHistory`: the stored list, or [] when the key is missing or does not parse. */
    function GetHistory(bank: Bank): (h: seq<Attempt>)
      reads this
      ensures StorageKey(bank) !in storage || storage[StorageKey(bank)].Unparsable? ==> h == []
      ensures StorageKey(bank) in storage && storage[StorageKey(bank)].Entries? ==>
        h == storage[StorageKey(bank)].attempts
    {
      var key := StorageKey(bank);
      if key in storage && storage[key].Entries? then storage[key].attempts else []
    }

    /** `addAttempt`: the new attempt goes first, the list is cut at 50, its id is returned. */
    method AddAttempt(bank: Bank, draft: AttemptDraft, id: string, now: int) returns (newId: string)
      modifies this
      ensures newId == id
      ensures storage == old(storage)[StorageKey(bank) := Entries(Prepend(NewAttempt(bank, draft, id, now), old(GetHistory(bank))))]
      ensures GetHistory(bank) == Prepend(NewAttempt(bank, draft, id, now), old(GetHistory(bank)))
      ensures forall b :: b != bank ==> GetHistory(b) == old(GetHistory(b))
    {
      var history := GetHistory(bank);
      var attempt := Attempt(id, bank, draft.transactionId, draft.accountNumber, now, draft.status, draft.errorType);
      history := [attempt] + history;
      var limited := Take(history, MaxAttempts);
      storage := storage[StorageKey(bank) := Entries(limited)];
      newId := attempt.id;
      forall b | b != bank ensures StorageKey(b) != StorageKey(bank) {
        StorageKeysDistinct(b, bank);
      }
    }

    /** `updateAttemptStatus`: rewrite the first attempt with the id, or write nothing. */
    method UpdateAttemptStatus(bank: Bank, id: string, status: AttemptStatus, errorType: Option<string>)
      requires status != Pending
      modifies this
      ensures var u := UpdatedHistory(old(GetHistory(bank)), id, status, errorType);
        storage == if u.None? then old(storage) else old(storage)[StorageKey(bank) := Entries(u.value)]
      ensures forall b :: b != bank ==> GetHistory(b) == old(GetHistory(b))
    {
      var history := GetHistory(bank);
      ghost var expected := UpdatedHistory(history, id, status, errorType);
      var attemptIndex := FindIndex(history, id);
      if attemptIndex > -1 {
        history := history[attemptIndex := history[attemptIndex].(status := status)];
        if Truthy(errorType) {
          history := history[attemptIndex := history[attemptIndex].(errorType := errorType)];
        }
        assert history == expected.value;
        storage := storage[StorageKey(bank) := Entries(history)];
      }
      forall b | b != bank ensures StorageKey(b) != StorageKey(bank) {
        StorageKeysDistinct(b, bank);
      }
    }

    /**
     * `getUniqueValues`: the ten most recent distinct non-empty values of the
     * stored history, or all of them when there are fewer.
     */
    function GetUniqueValues(bank: Bank, f: Field): (r: seq<string>)
      reads this
      ensures |r| <= MaxSuggestions
      ensures forall i, j :: 0 <= i < j < |r| ==> r[i] != r[j]
      ensures forall x :: x in r ==> x != "" && exists a :: a in GetHistory(bank) && FieldOf(a, f) == Some(x)
      ensures forall x :: x in Values(GetHistory(bank), f) && x !in r ==>
        && |r| == MaxSuggestions
        && forall y :: y in r ==> FirstIndex(Values(GetHistory(bank), f), y) < FirstIndex(Values(GetHistory(bank), f), x)
    {
      var h := GetHistory(bank);
      var r := UniqueValues(h, f);
      forall x | x in Values(h, f) && x !in r
        ensures |r| == MaxSuggestions
        ensures forall y :: y in r ==> FirstIndex(Values(h, f), y) < FirstIndex(Values(h, f), x)
      {
        UniqueValuesMostRecent(h, f, x);
      }
      r
    }

    /** `getAttemptsByValue`. */
    function GetAttemptsByValue(bank: Bank, f: Field, v: string): (r: seq<Attempt>)
      reads this
      ensures forall a :: a in r <==> a in GetHistory(bank) && FieldOf(a, f) == Some(v)
    {
      AttemptsByValue(GetHistory(bank), f, v)
    }

    /** `clearHistory`: remove one bank's key. */
    method ClearHistory(bank: Bank)
      modifies this
      ensures storage == old(storage) - {StorageKey(bank)}
      ensures GetHistory(bank) == []
      ensures forall b :: b != bank ==> GetHistory(b) == old(GetHistory(b))
    {
      storage := storage - {StorageKey(bank)};
      forall b | b != bank ensures StorageKey(b) != StorageKey(bank) {
        StorageKeysDistinct(b, bank);
      }
    }

    /** `clearAllHistory`: remove the keys of all three banks and nothing else. */
    method ClearAllHistory()
      modifies this
      ensures storage == old(storage) - {StorageKey(Telebirr), StorageKey(Boa), StorageKey(Cbe)}
      ensures forall b :: GetHistory(b) == []
    {
      storage := storage - {StorageKey(Telebirr)};
      storage := storage - {StorageKey(Boa)};
      storage := storage - {StorageKey(Cbe)};
    }
  }
}
