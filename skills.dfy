/** The skills chips of src/App.jsx (lines 531 and 721): the backend's
    `skills_detected` text is cut at every comma by `split(',')` and each piece
    is shown after `trim()`. */
module Skills {
  import opened Js

  /** The characters `String.prototype.trim` removes: the ECMAScript WhiteSpace
      and LineTerminator code points. */
  predicate IsSpace(c: char) {
    || c == '\t' || c == '\n' || c == '\U{000B}' || c == '\U{000C}' || c == '\r' || c == ' '
    || c == '\U{00A0}' || c == '\U{1680}' || ('\U{2000}' <= c <= '\U{200A}')
    || c == '\U{2028}' || c == '\U{2029}' || c == '\U{202F}' || c == '\U{205F}'
    || c == '\U{3000}' || c == '\U{FEFF}'
  }

  /** Every character of `s` from index `lo` up to (not including) `hi` is whitespace. */
  ghost predicate SpaceBetween(s: string, lo: int, hi: int) {
    forall i :: lo <= i < hi && 0 <= i < |s| ==> IsSpace(s[i])
  }

  /** `s.split(',')`: the maximal comma-free pieces of `s`, in order; an empty
      string still yields one (empty) piece. */
  function Split(s: string): (parts: seq<string>)
    ensures |parts| >= 1
    ensures forall i :: 0 <= i < |parts| ==> ',' !in parts[i]
    decreases |s|
  {
    if s == [] then [""]
    else
      var rest := Split(s[1..]);
      if s[0] == ',' then [""] + rest
      else [[s[0]] + rest[0]] + rest[1..]
  }

  /** `parts.join(',')`, the partner of Split. */
  function Join(parts: seq<string>): string
    requires |parts| >= 1
  {
    if |parts| == 1 then parts[0] else parts[0] + "," + Join(parts[1..])
  }

  /** The number of commas in a string. */
  function Commas(s: string): nat {
    if s == [] then 0 else (if s[0] == ',' then 1 else 0) + Commas(s[1..])
  }

  /** Splitting loses nothing: joining the pieces with commas gives back the text. */
  lemma {:induction false} JoinSplit(s: string)
    ensures Join(Split(s)) == s
    decreases |s|
  {
    if s != [] {
      JoinSplit(s[1..]);
      var rest := Split(s[1..]);
      if s[0] != ',' {
        if |rest| > 1 {
          assert Join(rest) == rest[0] + "," + Join(rest[1..]);
          assert ([s[0]] + rest[0]) + "," + Join(rest[1..]) == [s[0]] + (rest[0] + "," + Join(rest[1..]));
        }
        assert s == [s[0]] + s[1..];
      } else {
        assert s == [','] + s[1..];
      }
    }
  }

  /** There is one piece more than there are commas. */
  lemma {:induction false} SplitCount(s: string)
    ensures |Split(s)| == Commas(s) + 1
    decreases |s|
  {
    if s != [] {
      SplitCount(s[1..]);
    }
  }

  lemma {:induction false} SplitAppendHead(c: char, t: string)
    requires c != ','
    ensures Split([c] + t) == [[c] + Split(t)[0]] + Split(t)[1..]
  {
    assert ([c] + t)[1..] == t;
  }

  /** Split is also a left inverse of Join: comma-free pieces come back unchanged. */
  lemma {:induction false} SplitJoin(parts: seq<string>)
    requires |parts| >= 1
    requires forall i :: 0 <= i < |parts| ==> ',' !in parts[i]
    ensures Split(Join(parts)) == parts
    decreases |parts|, |parts[0]|
  {
    var p := parts[0];
    if p == [] {
      if |parts| > 1 {
        SplitJoin(parts[1..]);
        var j := Join(parts);
        assert j == "," + Join(parts[1..]);
        assert j[1..] == Join(parts[1..]);
        assert parts == [""] + parts[1..];
      }
    } else {
      var tail := [p[1..]] + parts[1..];
      assert ',' !in p[1..] by {
        forall k | 0 <= k < |p[1..]| ensures p[1..][k] != ',' { assert p[1..][k] == p[k + 1]; }
      }
      forall i | 0 <= i < |tail| ensures ',' !in tail[i] {
        if i > 0 { assert tail[i] == parts[i]; }
      }
      SplitJoin(tail);
      assert Join(parts) == [p[0]] + Join(tail) by {
        if |parts| > 1 {
          assert Join(tail) == p[1..] + "," + Join(tail[1..]);
          assert tail[1..] == parts[1..];
          assert p == [p[0]] + p[1..];
        } else {
          assert p == [p[0]] + p[1..];
        }
      }
      assert p[0] != ',';
      SplitAppendHead(p[0], Join(tail));
      assert [p[0]] + p[1..] == p;
      assert parts == [p] + parts[1..];
    }
  }

  /** The first index at or after `i` that does not hold whitespace (or `|s|`). */
  function LeadEnd(s: string, i: nat): (k: nat)
    requires i <= |s|
    ensures i <= k <= |s|
    ensures SpaceBetween(s, i, k)
    ensures k < |s| ==> !IsSpace(s[k])
    decreases |s| - i
  {
    if i < |s| && IsSpace(s[i]) then LeadEnd(s, i + 1) else i
  }

  /** The index after the last non-whitespace character of `s[lo..j]` (or `lo`). */
  function TrailStart(s: string, lo: nat, j: nat): (k: nat)
    requires lo <= j <= |s|
    ensures lo <= k <= j
    ensures SpaceBetween(s, k, j)
    ensures k > lo ==> !IsSpace(s[k - 1])
    decreases j
  {
    if j > lo && IsSpace(s[j - 1]) then TrailStart(s, lo, j - 1) else j
  }

  /** Where `s.trim()` starts in `s`: after the leading whitespace. */
  function TrimOffset(s: string): (i: nat)
    ensures i <= |s|
  {
    LeadEnd(s, 0)
  }

  /** `s.trim()`: the slice of `s` left after removing whitespace from both
      ends; it neither starts nor ends with whitespace. */
  function Trim(s: string): (r: string)
    ensures TrimOffset(s) + |r| <= |s| && r == s[TrimOffset(s)..TrimOffset(s) + |r|]
    ensures SpaceBetween(s, 0, TrimOffset(s)) && SpaceBetween(s, TrimOffset(s) + |r|, |s|)
    ensures r != [] ==> !IsSpace(r[0]) && !IsSpace(r[|r| - 1])
  {
    var i := LeadEnd(s, 0);
    var j := TrailStart(s, i, |s|);
    s[i..j]
  }

  /** Trimming twice is trimming once. */
  lemma TrimIdempotent(s: string)
    ensures Trim(Trim(s)) == Trim(s)
  {
    var t := Trim(s);
    assert LeadEnd(t, 0) == 0;
    assert TrailStart(t, 0, |t|) == |t|;
    assert t[0..|t|] == t;
  }

  /** The chips for a string: every comma-separated piece, trimmed, in order. */
  function ChipsOf(s: string): (chips: seq<string>)
    ensures |chips| == |Split(s)| == Commas(s) + 1
    ensures forall i :: 0 <= i < |chips| ==> ',' !in chips[i]
    ensures forall i :: 0 <= i < |chips| ==> chips[i] == Trim(Split(s)[i])
  {
    var parts := Split(s);
    SplitCount(s);
    var chips := seq(|parts|, i requires 0 <= i < |parts| => Trim(parts[i]));
    assert forall i :: 0 <= i < |chips| ==> ',' !in chips[i] by {
      forall i, k | 0 <= i < |chips| && 0 <= k < |chips[i]| ensures chips[i][k] != ',' {
        assert chips[i][k] == parts[i][TrimOffset(parts[i]) + k];
      }
    }
    chips
  }

  /** Recruiter's candidate profile (line 531): `skills_detected?.split(',')`,
      so a missing value shows no chips and an empty string shows one empty chip.
      A non-string value would make `split` throw; the caller never passes one. */
  function ProfileChips(skills: JsValue): (chips: seq<string>)
    requires skills.Str? || skills.Nullish()
    ensures skills.Nullish() ==> chips == []
    ensures skills.Str? ==> chips == ChipsOf(skills.s)
  {
    if skills.Str? then ChipsOf(skills.s) else []
  }

  /** Candidate's application detail (line 717-721): chips only when
      `skills_detected` is truthy, so an empty string shows none. */
  function DetailChips(skills: JsValue): (chips: seq<string>)
    requires skills.Str? || !Truthy(skills)
    ensures !Truthy(skills) ==> chips == []
    ensures Truthy(skills) ==> chips == ChipsOf(skills.s)
  {
    if Truthy(skills) then ChipsOf(skills.s) else []
  }

  /** The two screens disagree on an empty skills text: the profile shows one
      empty chip, the detail screen none. */
  lemma EmptySkillsDiffer()
    ensures ProfileChips(Str("")) == [""]
    ensures DetailChips(Str("")) == []
  {
    assert Split("") == [""];
    assert Trim("") == "";
  }
}
