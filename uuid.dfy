/**
 * The UUID string pattern `^\w+-\w+-\w+-\w+-\w+$` (src/types/uuid.ts): five
 * non-empty runs of word characters joined by single hyphens, anchored at both
 * ends. `IsUuid` is the left-to-right matcher; `UuidShape` is the reference
 * definition through splitting at hyphens.
 */
module Uuid {

  /** The regular-expression class `\w`: ASCII letters, digits and underscore. */
  predicate IsWordChar(c: char)
  {
    'a' <= c <= 'z' || 'A' <= c <= 'Z' || '0' <= c <= '9' || c == '_'
  }

  predicate AllWord(s: string)
  {
    forall i :: 0 <= i < |s| ==> IsWordChar(s[i])
  }

  predicate IsWordRun(s: string)
  {
    |s| > 0 && AllWord(s)
  }

  /**
   * The matcher: `groups` hyphens consumed so far, `run` the length of the
   * current run of word characters.
   */
  predicate Scan(s: string, groups: nat, run: nat)
    decreases |s|
  {
    if s == [] then groups == 4 && run > 0
    else if IsWordChar(s[0]) then Scan(s[1..], groups, run + 1)
    else if s[0] == '-' then run > 0 && groups < 4 && Scan(s[1..], groups + 1, 0)
    else false
  }

  predicate IsUuid(s: string)
  {
    Scan(s, 0, 0)
  }

  /** `s.split("-")` */
  function Split(s: string): (parts: seq<string>)
    ensures |parts| >= 1
    decreases |s|
  {
    if s == [] then [""]
    else if s[0] == '-' then [""] + Split(s[1..])
    else
      var rest := Split(s[1..]);
      [[s[0]] + rest[0]] + rest[1..]
  }

  /** `parts.join("-")` */
  function JoinDash(parts: seq<string>): string
    requires |parts| >= 1
    decreases |parts|
  {
    if |parts| == 1 then parts[0] else parts[0] + "-" + JoinDash(parts[1..])
  }

  /** The reference definition: exactly five hyphen-separated fields, each a run of word characters. */
  predicate UuidShape(s: string)
  {
    var parts := Split(s);
    |parts| == 5 && forall i :: 0 <= i < 5 ==> IsWordRun(parts[i])
  }

  /** What the matcher has still to accept, given its state, stated on the remaining fields. */
  predicate Fits(parts: seq<string>, groups: nat, run: nat)
  {
    && |parts| + groups == 5
    && (forall i :: 0 <= i < |parts| ==> AllWord(parts[i]))
    && (run > 0 || (|parts| > 0 && parts[0] != ""))
    && (forall i :: 1 <= i < |parts| ==> parts[i] != "")
  }

  /** The matcher's invariant: what it has still to accept matches the fields left by splitting. */
  lemma {:induction false} ScanFits(s: string, groups: nat, run: nat)
    ensures Scan(s, groups, run) <==> Fits(Split(s), groups, run)
    decreases |s|
  {
    if s == [] {
    } else if IsWordChar(s[0]) {
      ScanFits(s[1..], groups, run + 1);
      FitsWordStep(s, groups, run);
    } else if s[0] == '-' {
      ScanFits(s[1..], groups + 1, 0);
      FitsHyphenStep(s, groups, run);
    } else {
      var parts := Split(s);
      assert !IsWordChar(parts[0][0]);
    }
  }

  /** A leading word character joins the first field. */
  lemma FitsWordStep(s: string, groups: nat, run: nat)
    requires s != [] && IsWordChar(s[0])
    ensures Fits(Split(s), groups, run) <==> Fits(Split(s[1..]), groups, run + 1)
  {
    var rest := Split(s[1..]);
    var parts := Split(s);
    assert parts == [[s[0]] + rest[0]] + rest[1..];
    assert AllWord([s[0]] + rest[0]) <==> AllWord(rest[0]) by {
      if AllWord(rest[0]) {
        forall i | 0 <= i < |[s[0]] + rest[0]| ensures IsWordChar(([s[0]] + rest[0])[i]) {
          if i > 0 { assert ([s[0]] + rest[0])[i] == rest[0][i - 1]; }
        }
      }
      if AllWord([s[0]] + rest[0]) {
        forall i | 0 <= i < |rest[0]| ensures IsWordChar(rest[0][i]) {
          assert rest[0][i] == ([s[0]] + rest[0])[i + 1];
        }
      }
    }
    assert (forall i :: 0 <= i < |parts| ==> AllWord(parts[i]))
      <==> (forall i :: 0 <= i < |rest| ==> AllWord(rest[i])) by {
      assert parts[0] == [s[0]] + rest[0];
      assert forall i :: 1 <= i < |parts| ==> parts[i] == rest[i];
      if forall i :: 0 <= i < |rest| ==> AllWord(rest[i]) {
        forall i | 0 <= i < |parts| ensures AllWord(parts[i]) {
          if i == 0 { assert AllWord(rest[0]); } else { assert AllWord(rest[i]); }
        }
      }
      if forall i :: 0 <= i < |parts| ==> AllWord(parts[i]) {
        forall i | 0 <= i < |rest| ensures AllWord(rest[i]) {
          if i == 0 { assert AllWord(parts[0]); } else { assert AllWord(parts[i]); }
        }
      }
    }
    assert (forall i :: 1 <= i < |parts| ==> parts[i] != "")
      <==> (forall i :: 1 <= i < |rest| ==> rest[i] != "") by {
      assert forall i :: 1 <= i < |parts| ==> parts[i] == rest[i];
    }
  }

  /** A leading hyphen closes a non-empty first field and opens the next group. */
  lemma FitsHyphenStep(s: string, groups: nat, run: nat)
    requires s != [] && s[0] == '-'
    ensures Fits(Split(s), groups, run) <==> run > 0 && groups < 4 && Fits(Split(s[1..]), groups + 1, 0)
  {
    var rest := Split(s[1..]);
    var parts := Split(s);
    assert parts == [""] + rest;
    assert forall i :: 1 <= i < |parts| ==> parts[i] == rest[i - 1];
    assert AllWord("");
    if Fits(parts, groups, run) {
      assert run > 0;
      assert Fits(rest, groups + 1, 0) by {
        assert rest[0] == parts[1];
        forall i | 0 <= i < |rest| ensures AllWord(rest[i]) && (i >= 1 ==> rest[i] != "") {
          assert rest[i] == parts[i + 1];
        }
      }
    }
    if run > 0 && groups < 4 && Fits(rest, groups + 1, 0) {
      forall i | 0 <= i < |parts| ensures AllWord(parts[i]) && (i >= 1 ==> parts[i] != "") {
        if i >= 1 { assert parts[i] == rest[i - 1]; }
      }
    }
  }

  /** The matcher accepts exactly the strings of the reference shape. */
  lemma IsUuidIffShape(s: string)
    ensures IsUuid(s) <==> UuidShape(s)
  {
    ScanFits(s, 0, 0);
  }

  /** Splitting a word run glued to a string: the run joins the first field. */
  lemma {:induction false} SplitPrefix(p: string, s: string)
    requires AllWord(p)
    ensures Split(p + s) == [p + Split(s)[0]] + Split(s)[1..]
    decreases |p|
  {
    if p != [] {
      assert (p + s)[0] == p[0] && (p + s)[1..] == p[1..] + s;
      assert IsWordChar(p[0]);
      assert AllWord(p[1..]) by {
        forall i | 0 <= i < |p[1..]| ensures IsWordChar(p[1..][i]) { assert p[1..][i] == p[i + 1]; }
      }
      SplitPrefix(p[1..], s);
      assert [p[0]] + (p[1..] + Split(s)[0]) == p + Split(s)[0];
    } else {
      assert p + s == s;
      assert p + Split(s)[0] == Split(s)[0];
      assert Split(s) == [Split(s)[0]] + Split(s)[1..];
    }
  }

  /** Splitting the hyphen-join of fields without hyphens gives the fields back. */
  lemma {:induction false} SplitJoin(parts: seq<string>)
    requires |parts| >= 1
    requires forall i :: 0 <= i < |parts| ==> AllWord(parts[i])
    ensures Split(JoinDash(parts)) == parts
    decreases |parts|
  {
    if |parts| == 1 {
      SplitPrefix(parts[0], "");
      assert parts[0] + "" == parts[0];
    } else {
      var tail := JoinDash(parts[1..]);
      SplitJoin(parts[1..]);
      assert JoinDash(parts) == parts[0] + ("-" + tail);
      SplitPrefix(parts[0], "-" + tail);
      assert ("-" + tail)[1..] == tail;
      assert Split("-" + tail) == [""] + Split(tail);
      assert parts[0] + "" == parts[0];
    }
  }

  /** A hyphen-join of word-character fields is accepted iff there are five of them, none empty. */
  lemma JoinAccepted(parts: seq<string>)
    requires |parts| >= 1
    requires forall i :: 0 <= i < |parts| ==> AllWord(parts[i])
    ensures IsUuid(JoinDash(parts)) <==> |parts| == 5 && forall i :: 0 <= i < 5 ==> parts[i] != ""
  {
    IsUuidIffShape(JoinDash(parts));
    SplitJoin(parts);
  }

  predicate IsHexChar(c: char)
  {
    '0' <= c <= '9' || 'a' <= c <= 'f' || 'A' <= c <= 'F'
  }

  predicate IsHexRun(s: string, n: nat)
  {
    |s| == n && forall i :: 0 <= i < |s| ==> IsHexChar(s[i])
  }

  /** Every canonical 8-4-4-4-12 hexadecimal UUID is accepted. */
  lemma CanonicalAccepted(a: string, b: string, c: string, d: string, e: string)
    requires IsHexRun(a, 8) && IsHexRun(b, 4) && IsHexRun(c, 4) && IsHexRun(d, 4) && IsHexRun(e, 12)
    ensures IsUuid(a + "-" + b + "-" + c + "-" + d + "-" + e)
  {
    var parts := [a, b, c, d, e];
    assert JoinDash(parts[4..]) == e;
    assert JoinDash(parts[3..]) == d + "-" + e;
    assert JoinDash(parts[2..]) == c + "-" + (d + "-" + e);
    assert JoinDash(parts[1..]) == b + "-" + (c + "-" + (d + "-" + e));
    assert JoinDash(parts) == a + "-" + b + "-" + c + "-" + d + "-" + e;
    JoinAccepted(parts);
  }

  /** Four groups are too few. */
  lemma TooFewGroupsRejected()
    ensures !IsUuid("a-b-c-d")
  {
    JoinAccepted(["a", "b", "c", "d"]);
    assert JoinDash(["a", "b", "c", "d"]) == "a-b-c-d";
  }

  /** Six groups are too many. */
  lemma TooManyGroupsRejected()
    ensures !IsUuid("a-b-c-d-e-f")
  {
    JoinAccepted(["a", "b", "c", "d", "e", "f"]);
    assert JoinDash(["a", "b", "c", "d", "e", "f"]) == "a-b-c-d-e-f";
  }

  /** A group left empty, as in "a--b-c-d", is rejected. */
  lemma EmptyGroupRejected()
    ensures !IsUuid("a--b-c-d")
  {
    JoinAccepted(["a", "", "b", "c", "d"]);
    assert JoinDash(["a", "", "b", "c", "d"]) == "a--b-c-d";
  }

  /** Every character of an accepted string is a word character or a hyphen. */
  lemma {:induction false} AcceptedChars(s: string, groups: nat, run: nat)
    requires Scan(s, groups, run)
    ensures forall i :: 0 <= i < |s| ==> IsWordChar(s[i]) || s[i] == '-'
    decreases |s|
  {
    if s != [] {
      AcceptedChars(s[1..], if IsWordChar(s[0]) then groups else groups + 1, if IsWordChar(s[0]) then run + 1 else 0);
      forall i | 1 <= i < |s| ensures IsWordChar(s[i]) || s[i] == '-' { assert s[i] == s[1..][i - 1]; }
    }
  }

  /** A character that is neither a word character nor a hyphen (a dot, a space) anywhere rejects the string. */
  lemma NonWordRejected(s: string, i: nat)
    requires i < |s| && !IsWordChar(s[i]) && s[i] != '-'
    ensures !IsUuid(s)
  {
    if IsUuid(s) { AcceptedChars(s, 0, 0); }
  }

  /** The pattern is anchored: an accepted UUID followed by another hyphen-separated group is rejected. */
  lemma ExtraGroupRejected(parts: seq<string>, extra: string)
    requires |parts| == 5 && forall i :: 0 <= i < 5 ==> AllWord(parts[i])
    requires AllWord(extra)
    ensures !IsUuid(JoinDash(parts) + "-" + extra)
  {
    var longer := parts + [extra];
    assert JoinDash(longer) == JoinDash(parts) + "-" + extra by {
      JoinAppend(parts, extra);
    }
    JoinAccepted(longer);
  }

  lemma {:induction false} JoinAppend(parts: seq<string>, extra: string)
    requires |parts| >= 1
    ensures JoinDash(parts + [extra]) == JoinDash(parts) + "-" + extra
    decreases |parts|
  {
    if |parts| > 1 {
      assert (parts + [extra])[1..] == parts[1..] + [extra];
      JoinAppend(parts[1..], extra);
    }
  }
}
