/** The invitee e-mail list of the trip-creation form: the `find`, spread
    and `filter` the form applies to it, and the invariant they keep. */
module Invites {
  import opened Shared
  import opened Strings

  predicate Distinct(s: seq<string>) {
    forall i, j :: 0 <= i < j < |s| ==> s[i] != s[j]
  }

  /** The list invariant: no entry twice, every entry accepted by the
      e-mail validator and free of upper-case letters. */
  predicate WellFormed(emails: seq<string>, isEmail: string -> bool) {
    && Distinct(emails)
    && forall k :: 0 <= k < |emails| ==> isEmail(emails[k]) && IsLower(emails[k])
  }

  /** `emails.find((email) => email === x)`: the first entry equal to `x`
      (case-sensitive, nothing trimmed), absent exactly when `x` is not listed. */
  function Find(emails: seq<string>, x: string): (r: Option<string>)
    ensures r.Some? <==> x in emails
    ensures r.Some? ==> r.value == x
  {
    if emails == [] then None
    else if emails[0] == x then Some(emails[0])
    else Find(emails[1..], x)
  }

  /** JavaScript truthiness of what `find` returns: `undefined` and the
      empty string are falsy, every other string is truthy. */
  predicate Truthy(found: Option<string>) {
    found.Some? && found.value != ""
  }

  datatype AddOutcome = InvalidEmail | AlreadyAdded | Added(emails: seq<string>)

  /** The list update of `handleAddEmail`: reject an input the validator
      refuses, then one that `find` reports as already listed, else append
      it at the end. */
  function AddEmail(emails: seq<string>, input: string, isEmail: string -> bool): (r: AddOutcome)
    ensures r == InvalidEmail <==> !isEmail(input)
    ensures r == AlreadyAdded <==> isEmail(input) && input in emails && input != ""
    ensures r.Added? ==> && |r.emails| == |emails| + 1
                         && r.emails[..|emails|] == emails
                         && r.emails[|emails|] == input
  {
    if !isEmail(input) then InvalidEmail
    else if Truthy(Find(emails, input)) then AlreadyAdded
    else Added(emails + [input])
  }

  /** Appending keeps the list invariant, for an input that is lower case
      (the form's input field only ever holds lower-cased text) and a
      validator that refuses the empty string (the one value `find`'s
      truthiness test would let through twice). */
  lemma AddEmailKeepsWellFormed(emails: seq<string>, input: string, isEmail: string -> bool)
    requires WellFormed(emails, isEmail)
    requires IsLower(input) && !isEmail("")
    ensures AddEmail(emails, input, isEmail).Added? ==> WellFormed(AddEmail(emails, input, isEmail).emails, isEmail)
  {
    var r := AddEmail(emails, input, isEmail);
    if r.Added? {
      var s := r.emails;
      assert s == emails + [input];
      forall i, j | 0 <= i < j < |s| ensures s[i] != s[j] {
        if j == |emails| { assert s[i] == emails[i]; }
      }
    }
  }

  /** Without a validator that refuses "", an empty entry is appended a
      second time: `find` returns "" and the truthiness test misses it. */
  lemma EmptyEntryIsNotCaught(emails: seq<string>, isEmail: string -> bool)
    requires "" in emails && isEmail("")
    ensures AddEmail(emails, "", isEmail) == Added(emails + [""])
    ensures !Distinct(emails + [""])
  {
    var k :| 0 <= k < |emails| && emails[k] == "";
    assert (emails + [""])[k] == (emails + [""])[|emails|];
  }

  /** Within a lower-case list and for a lower-case input, the form's exact
      comparison finds a duplicate exactly when a case-insensitive one would. */
  lemma ExactMatchIsCaseInsensitive(emails: seq<string>, input: string)
    requires forall k :: 0 <= k < |emails| ==> IsLower(emails[k])
    requires IsLower(input)
    ensures input in emails <==> exists k :: 0 <= k < |emails| && ToLower(emails[k]) == ToLower(input)
  {
    if k :| 0 <= k < |emails| && ToLower(emails[k]) == ToLower(input) {
      assert emails[k] == input;
    }
  }

  /** `emails.filter((email) => email !== x)`. Every entry equal to `x` goes,
      every other stays (as many times as before); a list without `x` comes
      back unchanged. */
  function RemoveAll(emails: seq<string>, x: string): (r: seq<string>)
    ensures multiset(r) == multiset(emails)[x := 0]
    ensures x !in emails ==> r == emails
  {
    if emails == [] then []
    else
      assert emails == [emails[0]] + emails[1..];
      (if emails[0] == x then [] else [emails[0]]) + RemoveAll(emails[1..], x)
  }

  /** Filtering works entry by entry, so the entries kept stay in their
      original relative order. */
  lemma {:induction false} RemoveAllConcat(a: seq<string>, b: seq<string>, x: string)
    ensures RemoveAll(a + b, x) == RemoveAll(a, x) + RemoveAll(b, x)
  {
    if a == [] {
      assert a + b == b;
    } else {
      assert (a + b)[1..] == a[1..] + b;
      RemoveAllConcat(a[1..], b, x);
    }
  }

  /** Putting an unlisted, accepted, lower-case entry in front keeps the
      list invariant. */
  lemma ConsWellFormed(head: string, tail: seq<string>, isEmail: string -> bool)
    requires WellFormed(tail, isEmail) && head !in tail
    requires isEmail(head) && IsLower(head)
    ensures WellFormed([head] + tail, isEmail)
  {
    var r := [head] + tail;
    forall i, j | 0 <= i < j < |r| ensures r[i] != r[j] {
      assert r[j] == tail[j - 1];
      if i > 0 { assert r[i] == tail[i - 1]; }
    }
    forall k | 0 <= k < |r| ensures isEmail(r[k]) && IsLower(r[k]) {
      if k > 0 { assert r[k] == tail[k - 1]; }
    }
  }

  /** Removing keeps the list invariant. */
  lemma {:induction false} RemoveAllKeepsWellFormed(emails: seq<string>, x: string, isEmail: string -> bool)
    requires WellFormed(emails, isEmail)
    ensures WellFormed(RemoveAll(emails, x), isEmail)
  {
    if emails != [] {
      var head, tail := emails[0], emails[1..];
      assert emails == [head] + tail;
      assert WellFormed(tail, isEmail);
      var rest := RemoveAll(tail, x);
      RemoveAllKeepsWellFormed(tail, x, isEmail);
      if head != x {
        assert head !in rest by {
          assert head !in tail;
          assert multiset(rest)[head] == multiset(tail)[head] == 0;
        }
        ConsWellFormed(head, rest, isEmail);
      }
    }
  }
}
