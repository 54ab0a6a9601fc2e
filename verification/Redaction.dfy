/**
 What substitution does to a text, stated on the text alone: it is cut into pieces that are kept and
 matches that are replaced, and there is only one way to cut it.
 */
module Redaction {
  import opened Prelude
  import opened Text
  import opened UnsafeInstructions

  /** Pieces with one text between each two. */
  function Woven(kept: seq<string>, between: seq<string>): string
    requires |kept| == |between| + 1
  {
    if between == [] then kept[0] else kept[0] + (between[0] + Woven(kept[1..], between[1..]))
  }

  function Repeated(text: string, n: nat): seq<string> {
    seq(n, _ => text)
  }

  /** m is what the first alternative that matches at the front of rest matches there. */
  ghost predicate FirstChoice(patterns: seq<string>, rest: string, m: string) {
    && m <= rest
    && exists j :: 0 <= j < |patterns| && Matches(patterns[j], m)
                   && forall i, n :: 0 <= i < j && 0 <= n <= |rest| ==> !Matches(patterns[i], rest[..n])
  }

  /** No match starts in front of position k. */
  ghost predicate NoMatchStarts(patterns: seq<string>, rest: string, k: nat) {
    forall a, b :: 0 <= a < k && a <= b <= |rest| ==> !IsMatch(patterns, rest[a..b])
  }

  /**
   The text is these kept pieces with these matches between them. From every kept piece on, no match starts
   within the piece, and what follows the piece is the first choice at its place.
   */
  ghost predicate CutInto(patterns: seq<string>, s: string, kept: seq<string>, matched: seq<string>) {
    && |kept| == |matched| + 1 && s == Woven(kept, matched)
    && (forall i {:trigger kept[i]} :: 0 <= i < |kept| ==>
          NoMatchStarts(patterns, Woven(kept[i..], matched[i..]), |kept[i]|))
    && (forall i {:trigger matched[i]} :: 0 <= i < |matched| ==>
          FirstChoice(patterns, matched[i] + Woven(kept[i + 1..], matched[i + 1..]), matched[i]))
  }

  lemma {:induction false} FirstMatchIsChoice(patterns: seq<string>, s: string, i: nat)
    requires AllRegular(patterns) && i <= |patterns| && FirstMatch(patterns, s, i).Some?
    requires forall k, n :: 0 <= k < i && 0 <= n <= |s| ==> !Matches(patterns[k], s[..n])
    ensures FirstChoice(patterns, s, s[..FirstMatch(patterns, s, i).value])
    decreases |patterns| - i
  {
    RegularIsWellFormed(patterns[i]);
    forall n: nat ensures Consume(patterns[i], s) == Some(n) <==> n <= |s| && Matches(patterns[i], s[..n]) {
      ConsumeIff(patterns[i], s, n);
    }
    if Consume(patterns[i], s).Some? {
      assert Matches(patterns[i], s[..FirstMatch(patterns, s, i).value]);
    } else {
      FirstMatchIsChoice(patterns, s, i + 1);
    }
  }

  lemma NoMatchInFront(patterns: seq<string>, s: string, k: nat)
    requires AllRegular(patterns) && s != "" && FirstMatch(patterns, s, 0).None?
    requires NoMatchStarts(patterns, s[1..], k)
    ensures NoMatchStarts(patterns, s, k + 1)
  {
    forall a, b | 0 <= a < k + 1 && a <= b <= |s| ensures !IsMatch(patterns, s[a..b]) {
      if a == 0 {
        NoFirstMatch(patterns, s, b);
        assert s[0..b] == s[..b];
      } else {
        var x, y := a - 1, b - 1;
        assert s[a..b] == s[1..][x..y];
      }
    }
  }

  lemma WovenHead(head: string, kept: seq<string>, between: seq<string>)
    requires |kept| == |between| + 1
    ensures Woven([head + kept[0]] + kept[1..], between) == head + Woven(kept, between)
  {
    var longer := [head + kept[0]] + kept[1..];
    assert longer[1..] == kept[1..];
    if between != [] {
      var rest := between[0] + Woven(kept[1..], between[1..]);
      assert (head + kept[0]) + rest == head + (kept[0] + rest);
    }
  }

  lemma SameBehind(kept: seq<string>, longer: seq<string>)
    requires |kept| == |longer| > 0 && longer[1..] == kept[1..]
    ensures forall i :: 0 < i < |kept| ==> longer[i] == kept[i] && longer[i..] == kept[i..]
    ensures forall i :: 0 < i <= |kept| ==> longer[i..] == kept[i..]
  {
    forall i | 0 < i <= |kept| ensures longer[i..] == kept[i..] {
      assert longer[i..] == longer[1..][i - 1..] && kept[i..] == kept[1..][i - 1..];
    }
    forall i | 0 < i < |kept| ensures longer[i] == kept[i] {
      assert longer[i] == longer[1..][i - 1] && kept[i] == kept[1..][i - 1];
    }
  }

  lemma PieceGrows(patterns: seq<string>, s: string, kept: seq<string>, matched: seq<string>)
    requires AllRegular(patterns) && s != "" && FirstMatch(patterns, s, 0).None?
    requires CutInto(patterns, s[1..], kept, matched)
    ensures CutInto(patterns, s, [[s[0]] + kept[0]] + kept[1..], matched)
  {
    var longer := [[s[0]] + kept[0]] + kept[1..];
    assert matched[0..] == matched && longer[0..] == longer && kept[0..] == kept;
    WovenHead([s[0]], kept, matched);
    assert s == [s[0]] + s[1..];
    assert NoMatchStarts(patterns, Woven(kept[0..], matched[0..]), |kept[0]|);
    NoMatchInFront(patterns, s, |kept[0]|);
    assert longer[1..] == kept[1..];
    SameBehind(kept, longer);
  }

  lemma MatchAdded(patterns: seq<string>, s: string, n: nat, kept: seq<string>, matched: seq<string>)
    requires n <= |s| && FirstChoice(patterns, s, s[..n])
    requires CutInto(patterns, s[n..], kept, matched)
    ensures CutInto(patterns, s, [""] + kept, [s[..n]] + matched)
  {
    var more, most := [""] + kept, [s[..n]] + matched;
    assert more[1..] == kept && most[1..] == matched && s == s[..n] + s[n..];
    assert Woven(more, most) == "" + (s[..n] + Woven(kept, matched)) == s;
    forall i | 0 <= i < |more| ensures NoMatchStarts(patterns, Woven(more[i..], most[i..]), |more[i]|) {
      if i > 0 {
        assert more[i..] == kept[i - 1..] && most[i..] == matched[i - 1..] && more[i] == kept[i - 1];
      }
    }
    forall i | 0 <= i < |most| ensures FirstChoice(patterns, most[i] + Woven(more[i + 1..], most[i + 1..]), most[i]) {
      if i > 0 {
        assert more[i + 1..] == kept[i..] && most[i + 1..] == matched[i..] && most[i] == matched[i - 1];
      } else {
        assert more[1..] == kept && most[1..] == matched;
      }
    }
  }

  /**
   Every text is cut into kept pieces and matches, and substitution puts the note in the place of each match
   and changes nothing else.
   */
  lemma {:induction false} SubstituteReplaces(patterns: seq<string>, s: string)
    returns (kept: seq<string>, matched: seq<string>)
    requires AllRegular(patterns)
    ensures CutInto(patterns, s, kept, matched)
    ensures Substitute(patterns, s) == Woven(kept, Repeated(REDACTED, |matched|))
    decreases |s|
  {
    if s == "" {
      kept, matched := [""], [];
    } else {
      match FirstMatch(patterns, s, 0) {
        case Some(n) =>
          MatchIsNonEmpty(patterns, s);
          FirstMatchIsChoice(patterns, s, 0);
          var k, m := SubstituteReplaces(patterns, s[n..]);
          MatchAdded(patterns, s, n, k, m);
          kept, matched := [""] + k, [s[..n]] + m;
          assert kept[1..] == k && Repeated(REDACTED, |matched|)[1..] == Repeated(REDACTED, |m|);
          assert "" + (REDACTED + Woven(k, Repeated(REDACTED, |m|))) == Substitute(patterns, s);
        case None =>
          var k, m := SubstituteReplaces(patterns, s[1..]);
          PieceGrows(patterns, s, k, m);
          kept, matched := [[s[0]] + k[0]] + k[1..], m;
          WovenHead([s[0]], k, Repeated(REDACTED, |m|));
      }
    }
  }

  // ---------------------------------------------------------------- only one way to cut

  lemma MatchLengthUnique(p: string, rest: string, m: string, n: string)
    requires WellFormed(p) && m <= rest && n <= rest && Matches(p, m) && Matches(p, n)
    ensures m == n
  {
    ConsumeIff(p, rest, |m|);
    ConsumeIff(p, rest, |n|);
    assert rest[..|m|] == m && rest[..|n|] == n;
  }

  lemma ChoiceUnique(patterns: seq<string>, rest: string, m: string, n: string)
    requires AllRegular(patterns) && FirstChoice(patterns, rest, m) && FirstChoice(patterns, rest, n)
    ensures m == n
  {
    var j :| 0 <= j < |patterns| && Matches(patterns[j], m)
             && forall i, n :: 0 <= i < j && 0 <= n <= |rest| ==> !Matches(patterns[i], rest[..n]);
    var k :| 0 <= k < |patterns| && Matches(patterns[k], n)
             && forall i, n :: 0 <= i < k && 0 <= n <= |rest| ==> !Matches(patterns[i], rest[..n]);
    assert rest[..|m|] == m && rest[..|n|] == n;
    assert j == k;
    RegularIsWellFormed(patterns[j]);
    MatchLengthUnique(patterns[j], rest, m, n);
  }

  /** Whoever cuts a text so gets the same pieces, so substitution is fixed by what it says of them. */
  lemma {:induction false} OnlyOneCut(patterns: seq<string>, s: string, kept: seq<string>, matched: seq<string>,
                                      kept': seq<string>, matched': seq<string>)
    requires AllRegular(patterns)
    requires CutInto(patterns, s, kept, matched) && CutInto(patterns, s, kept', matched')
    ensures kept == kept' && matched == matched'
    decreases |matched|
  {
    if matched == [] {
      FirstPieceAtLeast(patterns, s, kept', matched', kept, matched);
      assert kept == [s] && kept' == [s];
    } else {
      FirstCutSame(patterns, s, kept, matched, kept', matched');
      CutTail(patterns, s, kept, matched);
      CutTail(patterns, s, kept', matched');
      OnlyOneCut(patterns, Woven(kept[1..], matched[1..]), kept[1..], matched[1..], kept'[1..], matched'[1..]);
      assert kept == [kept[0]] + kept[1..] && kept' == [kept'[0]] + kept'[1..];
      assert matched == [matched[0]] + matched[1..] && matched' == [matched'[0]] + matched'[1..];
    }
  }

  lemma FirstCutSame(patterns: seq<string>, s: string, kept: seq<string>, matched: seq<string>,
                     kept': seq<string>, matched': seq<string>)
    requires AllRegular(patterns) && matched != []
    requires CutInto(patterns, s, kept, matched) && CutInto(patterns, s, kept', matched')
    ensures matched' != [] && kept[0] == kept'[0] && matched[0] == matched'[0]
    ensures Woven(kept[1..], matched[1..]) == Woven(kept'[1..], matched'[1..])
  {
    FirstPieceAtLeast(patterns, s, kept, matched, kept', matched');
    FirstPieceAtLeast(patterns, s, kept', matched', kept, matched);
    var rest, tail, tail' := s[|kept[0]|..], Woven(kept[1..], matched[1..]), Woven(kept'[1..], matched'[1..]);
    assert rest == matched[0] + tail && rest == matched'[0] + tail';
    assert kept[0] == s[..|kept[0]|] == kept'[0];
    ChoiceUnique(patterns, rest, matched[0], matched'[0]);
    assert tail == rest[|matched[0]|..] == tail';
  }

  lemma CutTail(patterns: seq<string>, s: string, kept: seq<string>, matched: seq<string>)
    requires CutInto(patterns, s, kept, matched) && matched != []
    ensures CutInto(patterns, Woven(kept[1..], matched[1..]), kept[1..], matched[1..])
  {
    var k, m := kept[1..], matched[1..];
    forall i | 0 <= i < |k| ensures NoMatchStarts(patterns, Woven(k[i..], m[i..]), |k[i]|) {
      assert k[i] == kept[i + 1] && k[i..] == kept[i + 1..] && m[i..] == matched[i + 1..];
    }
    forall i | 0 <= i < |m| ensures FirstChoice(patterns, m[i] + Woven(k[i + 1..], m[i + 1..]), m[i]) {
      assert m[i] == matched[i + 1] && k[i + 1..] == kept[i + 2..] && m[i + 1..] == matched[i + 2..];
    }
  }

  lemma HoldsMatch(patterns: seq<string>, s: string, kept: seq<string>, matched: seq<string>)
    requires AllRegular(patterns) && CutInto(patterns, s, kept, matched) && matched != []
    ensures !NoMatchStarts(patterns, s, |s|)
  {
    var a, m := |kept[0]|, matched[0];
    var b := a + |m|;
    assert s[a..b] == m;
    assert IsMatch(patterns, m);
    MatchEnds(patterns, m);
  }

  /** A match that follows the first piece of one cut does not start within the first piece of another. */
  lemma FirstPieceAtLeast(patterns: seq<string>, s: string, kept: seq<string>, matched: seq<string>,
                          kept': seq<string>, matched': seq<string>)
    requires AllRegular(patterns)
    requires CutInto(patterns, s, kept, matched) && CutInto(patterns, s, kept', matched')
    ensures |kept[0]| <= |kept'[0]| && (matched' == [] ==> matched == [])
  {
    assert kept[0..] == kept && matched[0..] == matched && kept[0] <= s && kept'[0] <= s;
    if matched' != [] {
      var a, m := |kept'[0]|, matched'[0];
      var b := a + |m|;
      assert s[a..b] == m;
      assert NoMatchStarts(patterns, s, |kept[0]|);
      assert IsMatch(patterns, m);
    } else {
      assert kept'[0] == s && kept'[0..] == kept' && matched'[0..] == matched';
      assert NoMatchStarts(patterns, s, |s|);
      if matched != [] {
        HoldsMatch(patterns, s, kept, matched);
      }
    }
  }
}
