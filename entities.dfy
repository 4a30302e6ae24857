/**
 * Entity extraction of the classifier: the agent code and the policy
 * number. Each pattern has the shape \bKEYWORD\s+(\d+), searched
 * case-insensitively; the digit group of the leftmost match of the
 * first pattern (in list order) that matches anywhere is returned, and
 * "" when none matches.
 */
module Entities {
  import opened Text
  import opened Wrappers

  /**
   * \bK\s+(\d+) where K is any of the spellings (upper case, all of one
   * length): `p[óo]liza` becomes the spellings PÓLIZA and POLIZA.
   */
  datatype NumberPattern = NumberPattern(spellings: seq<string>)

  /** \bAGENTE\s+(\d+), then \bAG\s+(\d+). */
  const AgentPatterns: seq<NumberPattern> :=
    [NumberPattern(["AGENTE"]), NumberPattern(["AG"])]

  /** \bp[óo]liza\s+(\d+), \bP[ÓO]LIZA\s+(\d+), \bOT\s+(\d+), \bN[ÚU]MERO\s+(\d+). */
  const PolicyPatterns: seq<NumberPattern> :=
    [ NumberPattern(["PÓLIZA", "POLIZA"]), NumberPattern(["PÓLIZA", "POLIZA"]),
      NumberPattern(["OT"]), NumberPattern(["NÚMERO", "NUMERO"]) ]

  /** Number of consecutive characters from position i that satisfy the class. */
  function SpaceRun(t: string, i: nat): (n: nat)
    requires i <= |t|
    ensures i + n <= |t|
    ensures forall k :: i <= k < i + n ==> IsSpace(t[k])
    ensures i + n < |t| ==> !IsSpace(t[i + n])
    decreases |t| - i
  {
    if i < |t| && IsSpace(t[i]) then 1 + SpaceRun(t, i + 1) else 0
  }

  function DigitRun(t: string, i: nat): (n: nat)
    requires i <= |t|
    ensures i + n <= |t|
    ensures forall k :: i <= k < i + n ==> IsDigit(t[k])
    ensures i + n < |t| ==> !IsDigit(t[i + n])
    decreases |t| - i
  {
    if i < |t| && IsDigit(t[i]) then 1 + DigitRun(t, i + 1) else 0
  }

  /** The keyword sits at position i, compared case-insensitively. */
  predicate KeywordAt(t: string, i: nat, kw: string) {
    i + |kw| <= |t| && forall k :: 0 <= k < |kw| ==> UpperChar(t[i + k]) == kw[k]
  }

  /** \b before position i (the keyword itself starts with a word character). */
  predicate BoundaryBefore(t: string, i: nat)
    requires i <= |t|
  {
    i == 0 || !IsWordChar(t[i - 1])
  }

  /** The first spelling that sits at position i, if any. */
  function SpellingAt(spellings: seq<string>, t: string, i: nat): (r: Option<string>)
    ensures r.Some? ==> r.value in spellings && KeywordAt(t, i, r.value)
    ensures r.None? ==> forall k :: 0 <= k < |spellings| ==> !KeywordAt(t, i, spellings[k])
  {
    if spellings == [] then None
    else if KeywordAt(t, i, spellings[0]) then Some(spellings[0])
    else SpellingAt(spellings[1..], t, i)
  }

  /** The digit group of a match of the pattern that starts exactly at position i. */
  function MatchAt(p: NumberPattern, t: string, i: nat): (r: Option<string>)
    requires i <= |t|
    ensures r.Some? ==> |r.value| >= 1 && forall k :: 0 <= k < |r.value| ==> IsDigit(r.value[k])
  {
    if !BoundaryBefore(t, i) then None
    else match SpellingAt(p.spellings, t, i)
      case None => None
      case Some(kw) =>
        var j := i + |kw|;
        var w := SpaceRun(t, j);
        var d := DigitRun(t, j + w);
        if w >= 1 && d >= 1 then Some(t[j + w..j + w + d]) else None
  }

  /** re.search: try every start position from i on, leftmost first. */
  function SearchFrom(p: NumberPattern, t: string, i: nat): Option<string>
    requires i <= |t|
    decreases |t| - i
  {
    match MatchAt(p, t, i)
    case Some(g) => Some(g)
    case None => if i == |t| then None else SearchFrom(p, t, i + 1)
  }

  function Search(p: NumberPattern, t: string): Option<string> {
    SearchFrom(p, t, 0)
  }

  /** The loop over the pattern list: the first pattern that matches wins. */
  function ExtractFirst(ps: seq<NumberPattern>, t: string): string {
    if ps == [] then ""
    else match Search(ps[0], t)
      case Some(g) => g
      case None => ExtractFirst(ps[1..], t)
  }

  /** extract_agente_code: the digits after AGENTE, else after AG, else "". */
  function ExtractAgentCode(t: string): (r: string)
    ensures r == "" <==> Search(AgentPatterns[0], t).None? && Search(AgentPatterns[1], t).None?
    ensures Search(AgentPatterns[0], t).Some? ==> r == Search(AgentPatterns[0], t).value
    ensures Search(AgentPatterns[0], t).None? && Search(AgentPatterns[1], t).Some? ==>
              r == Search(AgentPatterns[1], t).value
    ensures forall c :: c in r ==> IsDigit(c)
  {
    ExtractFirstWins(AgentPatterns, t);
    ExtractFirst(AgentPatterns, t)
  }

  /** extract_poliza_number: the digits of the first of the four patterns that matches, else "". */
  function ExtractPolicyNumber(t: string): (r: string)
    ensures r == "" <==> forall k :: 0 <= k < |PolicyPatterns| ==> Search(PolicyPatterns[k], t).None?
    ensures r != "" ==> exists k :: 0 <= k < |PolicyPatterns| && Search(PolicyPatterns[k], t) == Some(r)
                                   && forall j :: 0 <= j < k ==> Search(PolicyPatterns[j], t).None?
    ensures forall c :: c in r ==> IsDigit(c)
  {
    ExtractFirstWins(PolicyPatterns, t);
    ExtractFirst(PolicyPatterns, t)
  }

  /** `extract(subject) or extract(body)`: the subject is searched first. */
  function SubjectThenBody(fromSubject: string, fromBody: string): (r: string)
    ensures fromSubject != "" ==> r == fromSubject
    ensures fromSubject == "" ==> r == fromBody
  {
    if fromSubject != "" then fromSubject else fromBody
  }

  /** No match of the pattern starts in positions [i, k). */
  predicate NoMatchBetween(p: NumberPattern, t: string, i: nat, k: nat)
    requires k <= |t| + 1
  {
    forall j :: i <= j < k ==> MatchAt(p, t, j).None?
  }

  /** The search finds nothing exactly when no position from i on starts a match. */
  lemma {:induction false} SearchFromNone(p: NumberPattern, t: string, i: nat)
    requires i <= |t|
    ensures SearchFrom(p, t, i).None? <==> NoMatchBetween(p, t, i, |t| + 1)
    decreases |t| - i
  {
    var m := MatchAt(p, t, i);
    if m.None? && i < |t| {
      SearchFromNone(p, t, i + 1);
    }
  }

  /** A result of the search is the match at the leftmost position from i on that starts one. */
  lemma {:induction false} SearchFromLeftmost(p: NumberPattern, t: string, i: nat)
    requires i <= |t|
    requires SearchFrom(p, t, i).Some?
    ensures exists k :: i <= k <= |t| && MatchAt(p, t, k) == SearchFrom(p, t, i) && NoMatchBetween(p, t, i, k)
    decreases |t| - i
  {
    if MatchAt(p, t, i).Some? {
      assert NoMatchBetween(p, t, i, i);
    } else {
      SearchFromLeftmost(p, t, i + 1);
      var k :| i + 1 <= k <= |t| && MatchAt(p, t, k) == SearchFrom(p, t, i + 1) && NoMatchBetween(p, t, i + 1, k);
      NoMatchExtends(p, t, i, k);
    }
  }

  /** No match at i and none in [i + 1, k) is none in [i, k). */
  lemma NoMatchExtends(p: NumberPattern, t: string, i: nat, k: nat)
    requires i < k <= |t| + 1
    requires MatchAt(p, t, i).None? && NoMatchBetween(p, t, i + 1, k)
    ensures NoMatchBetween(p, t, i, k)
  {
  }

  /**
   * Extraction yields "" exactly when no pattern matches; otherwise it yields a
   * nonempty digit string, the group of the first pattern that matches.
   */
  lemma {:induction false} ExtractFirstWins(ps: seq<NumberPattern>, t: string)
    ensures ExtractFirst(ps, t) == "" <==> forall k :: 0 <= k < |ps| ==> Search(ps[k], t).None?
    ensures ExtractFirst(ps, t) != "" ==>
      (forall c :: c in ExtractFirst(ps, t) ==> IsDigit(c))
      && exists k :: 0 <= k < |ps| && Search(ps[k], t) == Some(ExtractFirst(ps, t))
           && forall j :: 0 <= j < k ==> Search(ps[j], t).None?
  {
    if ps != [] {
      match Search(ps[0], t)
      case Some(g) =>
        SearchFromLeftmost(ps[0], t, 0);
        var k :| 0 <= k <= |t| && MatchAt(ps[0], t, k) == Some(g) && NoMatchBetween(ps[0], t, 0, k);
        assert g != "";
      case None =>
        ExtractFirstWins(ps[1..], t);
        var r := ExtractFirst(ps[1..], t);
        if r != "" {
          var k :| 0 <= k < |ps[1..]| && Search(ps[1..][k], t) == Some(r)
            && forall j :: 0 <= j < k ==> Search(ps[1..][j], t).None?;
          assert Search(ps[k + 1], t) == Some(r);
          assert forall j :: 0 <= j < k + 1 ==> Search(ps[j], t).None? by {
            forall j | 0 <= j < k + 1 ensures Search(ps[j], t).None? {
              if j > 0 { assert ps[j] == ps[1..][j - 1]; }
            }
          }
        } else {
          forall j | 0 <= j < |ps| ensures Search(ps[j], t).None? {
            if j > 0 { assert ps[j] == ps[1..][j - 1]; }
          }
        }
    }
  }

  /**
   * ÿ upper-cases to Ÿ, a word character, so no \b separates it from the
   * keyword that follows: the subject "ÿAG 12" yields no agent code.
   */
  lemma NoBoundaryAfterUpperY()
    ensures ExtractAgentCode(Upper("ÿAG 12")) == ""
  {
    var t := Upper("ÿAG 12");
    UpperOfSample();
    forall i | 0 <= i <= |t|
      ensures MatchAt(AgentPatterns[0], t, i).None? && MatchAt(AgentPatterns[1], t, i).None?
    {
      NoAgentMatchAt(t, i);
    }
    SearchFromNone(AgentPatterns[0], t, 0);
    SearchFromNone(AgentPatterns[1], t, 0);
  }

  lemma UpperOfSample()
    ensures Upper("ÿAG 12") == ['Ÿ', 'A', 'G', ' ', '1', '2']
  {
  }

  /** Position by position: the keyword is missing, or (at 1) no \b precedes it. */
  lemma NoAgentMatchAt(t: string, i: nat)
    requires t == ['Ÿ', 'A', 'G', ' ', '1', '2'] && i <= |t|
    ensures MatchAt(AgentPatterns[0], t, i).None? && MatchAt(AgentPatterns[1], t, i).None?
  {
    assert "AG"[0] == 'A' && "AGENTE"[0] == 'A';
    if i == 1 {
      assert !BoundaryBefore(t, i);
    } else {
      assert i + 2 > |t| || UpperChar(t[i]) != 'A';
      assert !KeywordAt(t, i, "AG") && !KeywordAt(t, i, "AGENTE");
    }
  }
}
