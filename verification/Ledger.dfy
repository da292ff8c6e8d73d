/**
 The session ledger of the salary calculator: the list of employees added
 so far, newest first, each with the breakdown frozen when it was added.

 Entry identifiers are made by the page from the clock and a random
 number; here the caller passes them in.
 */
module Ledger {
  import opened Payroll

  /** One stored employee. */
  datatype Entry = Entry(id: string, name: string, pay: Breakdown)

  /** The characters JavaScript's `String.prototype.trim` removes: the
      white space and line terminator code points of ECMAScript. */
  predicate IsWhitespace(ch: char) {
    || ch == '\t' || ch == '\n' || ch == '\U{000B}' || ch == '\U{000C}' || ch == '\r'
    || ch == ' ' || ch == '\U{00A0}' || ch == '\U{1680}'
    || ('\U{2000}' <= ch <= '\U{200A}')
    || ch == '\U{2028}' || ch == '\U{2029}' || ch == '\U{202F}' || ch == '\U{205F}'
    || ch == '\U{3000}' || ch == '\U{FEFF}'
  }

  /** The number of white space characters at the start of `s`. */
  function LeadingSpace(s: string): (n: nat)
    ensures n <= |s|
    ensures forall i :: 0 <= i < n ==> IsWhitespace(s[i])
    ensures n < |s| ==> !IsWhitespace(s[n])
  {
    if |s| == 0 || !IsWhitespace(s[0]) then 0 else 1 + LeadingSpace(s[1..])
  }

  /** The number of white space characters at the end of `s`. */
  function TrailingSpace(s: string): (n: nat)
    ensures n <= |s|
    ensures forall i :: |s| - n <= i < |s| ==> IsWhitespace(s[i])
    ensures n < |s| ==> !IsWhitespace(s[|s| - n - 1])
  {
    if |s| == 0 || !IsWhitespace(s[|s| - 1]) then 0 else 1 + TrailingSpace(s[..|s| - 1])
  }

  /** `s` without its leading and trailing white space: no longer than
      `s`, neither starting nor ending with white space, and `s` itself
      when `s` already neither starts nor ends with white space. */
  function Trim(s: string): (r: string)
    ensures |r| <= |s|
    ensures |r| > 0 ==> !IsWhitespace(r[0]) && !IsWhitespace(r[|r| - 1])
    ensures |s| > 0 && !IsWhitespace(s[0]) && !IsWhitespace(s[|s| - 1]) ==> r == s
  {
    var t := s[LeadingSpace(s)..];
    t[..|t| - TrailingSpace(t)]
  }

  /** The trimmed name is the part of `s` left after removing a run of
      white space from each end, and it neither starts nor ends with
      white space; it is empty exactly when `s` is all white space. */
  lemma TrimSpec(s: string) returns (lo: nat, hi: nat)
    ensures lo <= hi <= |s| && Trim(s) == s[lo..hi]
    ensures forall i :: 0 <= i < lo ==> IsWhitespace(s[i])
    ensures forall i :: hi <= i < |s| ==> IsWhitespace(s[i])
    ensures |Trim(s)| > 0 ==> !IsWhitespace(Trim(s)[0]) && !IsWhitespace(Trim(s)[|Trim(s)| - 1])
    ensures |Trim(s)| == 0 <==> forall i :: 0 <= i < |s| ==> IsWhitespace(s[i])
  {
    lo := LeadingSpace(s);
    var t := s[lo..];
    hi := |s| - TrailingSpace(t);
    assert Trim(s) == s[lo..hi];
    forall i | hi <= i < |s|
      ensures IsWhitespace(s[i])
    {
      assert s[i] == t[i - lo];
    }
  }

  /** Adding an employee: a name that is blank after trimming changes
      nothing; otherwise one entry, with the trimmed name and the current
      breakdown of the form, goes in front of the existing ones. */
  function AddEmployee(entries: seq<Entry>, name: string, form: PayrollInput, id: string): (r: seq<Entry>)
    ensures |Trim(name)| == 0 ==> r == entries
    ensures |Trim(name)| > 0 ==> |r| == |entries| + 1 && r[1..] == entries
    ensures |Trim(name)| > 0 ==> r[0].id == id && r[0].name == Trim(name) && r[0].pay == Calculate(form)
    ensures |Trim(name)| > 0 ==> AllCents(r[0].pay)
  {
    var trimmed := Trim(name);
    if |trimmed| == 0 then entries
    else [Entry(id, trimmed, Calculate(form))] + entries
  }

  /** True iff `a` can be obtained from `b` by deleting elements. */
  predicate IsSubsequence(a: seq<Entry>, b: seq<Entry>)
    decreases |b|
  {
    if |a| == 0 then true
    else if |b| == 0 then false
    else if a[0] == b[0] then IsSubsequence(a[1..], b[1..])
    else IsSubsequence(a, b[1..])
  }

  /** Removing by id: exactly the entries with that id go, and the others
      stay, each as often as before and in the same order. */
  function RemoveEntry(entries: seq<Entry>, id: string): (r: seq<Entry>)
    ensures forall i :: 0 <= i < |r| ==> r[i].id != id
    ensures forall e: Entry :: e.id != id ==> multiset(r)[e] == multiset(entries)[e]
    ensures IsSubsequence(r, entries)
  {
    if |entries| == 0 then []
    else if entries[0].id == id then
      assert entries == [entries[0]] + entries[1..];
      RemoveEntry(entries[1..], id)
    else
      assert entries == [entries[0]] + entries[1..];
      [entries[0]] + RemoveEntry(entries[1..], id)
  }

  /** Removing an id no entry has leaves the ledger unchanged. */
  lemma {:induction false} RemoveAbsent(entries: seq<Entry>, id: string)
    requires forall i :: 0 <= i < |entries| ==> entries[i].id != id
    ensures RemoveEntry(entries, id) == entries
  {
    if |entries| > 0 {
      RemoveAbsent(entries[1..], id);
    }
  }

  /** Removing the entry just added under a fresh id restores the ledger. */
  lemma RemoveUndoesAdd(entries: seq<Entry>, name: string, form: PayrollInput, id: string)
    requires |Trim(name)| > 0
    requires forall i :: 0 <= i < |entries| ==> entries[i].id != id
    ensures RemoveEntry(AddEmployee(entries, name, form, id), id) == entries
  {
    var added := AddEmployee(entries, name, form, id);
    assert added[1..] == entries;
    RemoveAbsent(entries, id);
  }

  /** Removing twice by the same id is the same as removing once. */
  lemma RemoveIdempotent(entries: seq<Entry>, id: string)
    ensures RemoveEntry(RemoveEntry(entries, id), id) == RemoveEntry(entries, id)
  {
    RemoveAbsent(RemoveEntry(entries, id), id);
  }

  /** Every stored amount is in whole hundredths. */
  predicate LedgerInCents(entries: seq<Entry>) {
    forall i :: 0 <= i < |entries| ==> AllCents(entries[i].pay)
  }

  /** Adding and removing keep every stored amount in whole hundredths. */
  lemma LedgerStaysInCents(entries: seq<Entry>, name: string, form: PayrollInput, id: string)
    requires LedgerInCents(entries)
    ensures LedgerInCents(AddEmployee(entries, name, form, id))
    ensures LedgerInCents(RemoveEntry(entries, id))
  {
    var r := RemoveEntry(entries, id);
    forall i | 0 <= i < |r|
      ensures AllCents(r[i].pay)
    {
      assert r[i] in multiset(r);
      assert r[i] in multiset(entries);
      assert r[i] in entries;
    }
  }
}
