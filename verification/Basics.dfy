/** Small shared vocabulary: optional values and the two text normalisers the queue relies on. */
module Basics {

  datatype Option<+T> = None | Some(value: T)

  const SPACES: set<char> := {' '}
  const WHITESPACE: set<char> := {' ', '\t', '\n', '\r', 11 as char, 12 as char}

  function StripStart(s: string, blanks: set<char>): string {
    if s != [] && s[0] in blanks then StripStart(s[1..], blanks) else s
  }

  function StripEnd(s: string, blanks: set<char>): string {
    if s != [] && s[|s| - 1] in blanks then StripEnd(s[..|s| - 1], blanks) else s
  }

  /** `str::trim`. */
  function Trim(s: string): string {
    StripEnd(StripStart(s, WHITESPACE), WHITESPACE)
  }

  /** SQL `trim`, which strips spaces only. */
  function SqlTrim(s: string): string {
    StripEnd(StripStart(s, SPACES), SPACES)
  }

  /** Trimming cuts blanks at both ends, all of them and nothing else. */
  lemma TrimmingIsExact(s: string, blanks: set<char>) returns (i: nat, j: nat)
    ensures i <= j <= |s| && StripEnd(StripStart(s, blanks), blanks) == s[i..j]
    ensures forall k :: 0 <= k < i || j <= k < |s| ==> s[k] in blanks
    ensures i < j ==> s[i] !in blanks && s[j - 1] !in blanks
  {
    i := StartOf(s, blanks);
    var rest := s[i..];
    var n := EndOf(rest, blanks);
    j := i + n;
    assert rest[..n] == s[i..j];
    assert forall k :: j <= k < |s| ==> s[k] == rest[k - i];
  }

  lemma {:induction false} StartOf(s: string, blanks: set<char>) returns (i: nat)
    ensures i <= |s| && StripStart(s, blanks) == s[i..] && forall k :: 0 <= k < i ==> s[k] in blanks
    ensures i < |s| ==> s[i] !in blanks
  {
    if s != [] && s[0] in blanks {
      var n := StartOf(s[1..], blanks);
      i := n + 1;
      assert s[1..][n..] == s[i..];
      assert forall k :: 0 < k < i ==> s[k] == s[1..][k - 1];
    } else {
      i := 0;
      assert s[0..] == s;
    }
  }

  lemma {:induction false} EndOf(s: string, blanks: set<char>) returns (n: nat)
    ensures n <= |s| && StripEnd(s, blanks) == s[..n] && forall k :: n <= k < |s| ==> s[k] in blanks
    ensures n > 0 ==> s[n - 1] !in blanks
  {
    if s != [] && s[|s| - 1] in blanks {
      n := EndOf(s[..|s| - 1], blanks);
      assert s[..|s| - 1][..n] == s[..n];
    } else {
      n := |s|;
      assert s[..n] == s;
    }
  }

  function Lower(s: string): string {
    seq(|s|, i requires 0 <= i < |s| => if 'A' <= s[i] <= 'Z' then s[i] - 'A' + 'a' else s[i])
  }

  /** `lower(trim(topic))`: the form under which two delegation topics count as the same. */
  function NormalTopic(s: string): string {
    Lower(SqlTrim(s))
  }

  predicate SameLetter(a: char, b: char) {
    a == b || ('A' <= a <= 'Z' && b == a - 'A' + 'a') || ('A' <= b <= 'Z' && a == b - 'A' + 'a')
  }

  /** Topics match exactly when their trimmed texts are equal but for the case of their letters. */
  lemma TopicsMatchExactlyWhen(a: string, b: string)
    ensures NormalTopic(a) == NormalTopic(b) <==>
      && |SqlTrim(a)| == |SqlTrim(b)|
      && forall k :: 0 <= k < |SqlTrim(a)| ==> SameLetter(SqlTrim(a)[k], SqlTrim(b)[k])
  {
    hide SqlTrim;
    var s, t := SqlTrim(a), SqlTrim(b);
    if Lower(s) == Lower(t) {
      forall k | 0 <= k < |s|
        ensures SameLetter(s[k], t[k])
      {
        assert Lower(s)[k] == Lower(t)[k];
      }
    } else if |s| == |t| {
      assert exists k :: 0 <= k < |s| && Lower(s)[k] != Lower(t)[k];
    }
  }

  /** A capability is compared trimmed, and a blank one means "no requirement". */
  function Requirement(capability: Option<string>): Option<string> {
    match capability
    case None => None
    case Some(text) => if Trim(text) == "" then None else Some(Trim(text))
  }
}
