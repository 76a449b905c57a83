/**
 * Classification of a media source string into a media type.
 *
 * The plugin runs the regular expression
 *   (?:http://www\.|http://|www\.|\.|^)(youtu|vimeo|soundcloud|baseplayer)
 * over the source and takes its first capture group, rewriting `youtu` to
 * `youtube`; a source it does not match is an HTML5 source, tagged "HTML".
 *
 * `Exec` models the regular expression the way a backtracking engine runs
 * it: the leftmost start position wins, and at one position the prefix
 * alternatives are tried in their written order, each followed by the
 * keyword alternatives in their written order. `FirstHit` is an independent
 * reference definition: the first position where a keyword stands in a
 * context the expression accepts (the start of the string, after a dot, or
 * after "http://"). `ExecIsFirstHit` proves the two agree.
 */
module SourceType {
  import opened Wrappers

  const HTML := "HTML"

  /** The keyword alternatives of the capture group, in the order written. */
  const Keywords: seq<string> := ["youtu", "vimeo", "soundcloud", "baseplayer"]

  /** Does `w` occur in `s` starting at index `i`? */
  predicate StartsAt(s: string, i: nat, w: string) {
    i + |w| <= |s| && s[i..i + |w|] == w
  }

  /** The keyword alternative that matches at index `j`, if any. */
  function KeywordAt(s: string, j: nat): Option<string> {
    if StartsAt(s, j, "youtu") then Some("youtu")
    else if StartsAt(s, j, "vimeo") then Some("vimeo")
    else if StartsAt(s, j, "soundcloud") then Some("soundcloud")
    else if StartsAt(s, j, "baseplayer") then Some("baseplayer")
    else None
  }

  /** One prefix alternative at index `i`, followed by the capture group. */
  function AfterPrefix(s: string, i: nat, prefix: string): Option<string> {
    if StartsAt(s, i, prefix) then KeywordAt(s, i + |prefix|) else None
  }

  /** The capture group of a match that starts exactly at index `i`. */
  function MatchAt(s: string, i: nat): Option<string> {
    Or(AfterPrefix(s, i, "http://www."),
    Or(AfterPrefix(s, i, "http://"),
    Or(AfterPrefix(s, i, "www."),
    Or(AfterPrefix(s, i, "."),
       if i == 0 then KeywordAt(s, 0) else None))))
  }

  /** The capture group of the leftmost match starting at index `i` or later. */
  function Exec(s: string, i: nat): Option<string>
    decreases |s| - i
  {
    if i > |s| then None else Or(MatchAt(s, i), Exec(s, i + 1))
  }

  /** A keyword may only count at the start, after a dot or after "http://". */
  predicate InContext(s: string, j: nat) {
    j == 0
    || (0 < j <= |s| && s[j - 1] == '.')
    || (7 <= j <= |s| && s[j - 7..j] == "http://")
  }

  /** A keyword stands at index `j` in an accepted context. */
  predicate Hit(s: string, j: nat) {
    InContext(s, j) && KeywordAt(s, j).Some?
  }

  /** Reference definition: the keyword at the first hit at or after `j`. */
  function FirstHit(s: string, j: nat): Option<string>
    decreases |s| - j
  {
    if j >= |s| then None
    else if Hit(s, j) then KeywordAt(s, j)
    else FirstHit(s, j + 1)
  }

  /** The media type the plugin stores for a source. */
  function MediaType(source: string): string {
    match Exec(source, 0)
    case None => HTML
    case Some(k) => if k == "youtu" then "youtube" else k
  }

  // ---------------------------------------------------------------------
  // Properties

  /** Every keyword begins with one of 'y', 'v', 's', 'b'; none of these
      letters occurs in any prefix alternative. */
  lemma KeywordInitial(s: string, j: nat)
    ensures KeywordAt(s, j).Some? ==>
      j < |s| && (s[j] == 'y' || s[j] == 'v' || s[j] == 's' || s[j] == 'b')
    ensures KeywordAt(s, j).Some? ==> KeywordAt(s, j).value in Keywords
  {
    if StartsAt(s, j, "youtu") { assert s[j] == s[j..j + 5][0]; }
    else if StartsAt(s, j, "vimeo") { assert s[j] == s[j..j + 5][0]; }
    else if StartsAt(s, j, "soundcloud") { assert s[j] == s[j..j + 10][0]; }
    else if StartsAt(s, j, "baseplayer") { assert s[j] == s[j..j + 10][0]; }
  }

  /** No keyword starts inside an occurrence of a prefix alternative. */
  lemma NoKeywordInsidePrefix(s: string, i: nat, prefix: string)
    requires prefix in ["http://www.", "http://", "www.", "."]
    requires StartsAt(s, i, prefix)
    ensures forall m :: i <= m < i + |prefix| ==> KeywordAt(s, m).None?
  {
    forall m | i <= m < i + |prefix|
      ensures KeywordAt(s, m).None?
    {
      assert s[m] == s[i..i + |prefix|][m - i] == prefix[m - i];
      KeywordInitial(s, m);
    }
  }

  /** A match found at `i` captures the keyword of a hit at some `j >= i`,
      and no keyword at all starts between `i` and `j`. */
  lemma MatchAtIsHit(s: string, i: nat, k: string)
    requires MatchAt(s, i) == Some(k)
    ensures exists j: nat :: (i <= j && Hit(s, j) && KeywordAt(s, j) == Some(k) &&
      forall m :: i <= m < j ==> KeywordAt(s, m).None?)
  {
    var j: nat;
    if AfterPrefix(s, i, "http://www.").Some? {
      j := i + 11;
      NoKeywordInsidePrefix(s, i, "http://www.");
      assert s[j - 1] == s[i..j][10];
    } else if AfterPrefix(s, i, "http://").Some? {
      j := i + 7;
      NoKeywordInsidePrefix(s, i, "http://");
    } else if AfterPrefix(s, i, "www.").Some? {
      j := i + 4;
      NoKeywordInsidePrefix(s, i, "www.");
      assert s[j - 1] == s[i..j][3];
    } else if AfterPrefix(s, i, ".").Some? {
      j := i + 1;
      NoKeywordInsidePrefix(s, i, ".");
      assert s[j - 1] == s[i..j][0];
    } else {
      j := 0;
    }
    assert Hit(s, j) && KeywordAt(s, j) == Some(k);
  }

  /** Every hit is found by the expression at its own index or before. */
  lemma HitIsMatched(s: string, j: nat)
    requires Hit(s, j)
    ensures exists i: nat :: i <= j && MatchAt(s, i).Some?
  {
    KeywordInitial(s, j);
    if j == 0 {
      assert MatchAt(s, 0).Some?;
    } else if s[j - 1] == '.' {
      assert s[j - 1..j] == ".";
      assert AfterPrefix(s, j - 1, ".").Some?;
      assert MatchAt(s, j - 1).Some?;
    } else {
      assert AfterPrefix(s, j - 7, "http://").Some?;
      assert MatchAt(s, j - 7).Some?;
    }
  }

  /** `Exec` finds nothing exactly when no position from `i` on matches;
      otherwise it returns the capture of the leftmost matching position. */
  lemma {:induction false} ExecScan(s: string, i: nat)
    ensures Exec(s, i).None? ==> forall m: nat :: i <= m <= |s| ==> MatchAt(s, m).None?
    ensures Exec(s, i).Some? ==> exists m: nat :: (i <= m <= |s| && MatchAt(s, m) == Exec(s, i) &&
      forall m': nat :: i <= m' < m ==> MatchAt(s, m').None?)
    decreases |s| - i
  {
    if i <= |s| {
      ExecScan(s, i + 1);
      var here := MatchAt(s, i);
      assert Exec(s, i) == Or(here, Exec(s, i + 1));
      if here.Some? {
        assert i <= i <= |s| && MatchAt(s, i) == Exec(s, i);
      } else if Exec(s, i).Some? {
        var m: nat :| i + 1 <= m <= |s| && MatchAt(s, m) == Exec(s, i + 1) &&
          forall m': nat :: i + 1 <= m' < m ==> MatchAt(s, m').None?;
        assert forall m': nat :: i <= m' < m ==> MatchAt(s, m').None?;
      } else {
        assert forall m: nat :: i + 1 <= m <= |s| ==> MatchAt(s, m).None?;
      }
    }
  }

  /** `FirstHit` returns the keyword of the first hit from `j` on. */
  lemma {:induction false} FirstHitScan(s: string, j: nat)
    ensures FirstHit(s, j).None? ==> forall m: nat :: j <= m ==> !Hit(s, m)
    ensures FirstHit(s, j).Some? ==> exists m: nat :: (j <= m && Hit(s, m) &&
      KeywordAt(s, m) == FirstHit(s, j) && forall m': nat :: j <= m' < m ==> !Hit(s, m'))
    decreases |s| - j
  {
    if j >= |s| {
      forall m: nat | j <= m ensures !Hit(s, m) { KeywordInitial(s, m); }
    } else if Hit(s, j) {
      assert j <= j && Hit(s, j) && KeywordAt(s, j) == FirstHit(s, j);
    } else {
      FirstHitScan(s, j + 1);
      assert FirstHit(s, j) == FirstHit(s, j + 1);
      if FirstHit(s, j).Some? {
        var m: nat :| j + 1 <= m && Hit(s, m) && KeywordAt(s, m) == FirstHit(s, j + 1) &&
          forall m': nat :: j + 1 <= m' < m ==> !Hit(s, m');
        assert forall m': nat :: j <= m' < m ==> !Hit(s, m');
      }
    }
  }

  /** The regular expression and the reference definition agree. */
  lemma ExecIsFirstHit(s: string)
    ensures Exec(s, 0) == FirstHit(s, 0)
  {
    ExecScan(s, 0);
    FirstHitScan(s, 0);
    if Exec(s, 0).None? {
      if FirstHit(s, 0).Some? {
        var j: nat :| Hit(s, j);
        HitIsMatched(s, j);
        KeywordInitial(s, j);
        assert false;
      }
    } else {
      var m0: nat :| m0 <= |s| && MatchAt(s, m0) == Exec(s, 0) &&
        forall m': nat :: m' < m0 ==> MatchAt(s, m').None?;
      MatchAtIsHit(s, m0, Exec(s, 0).value);
      var j0: nat :| m0 <= j0 && Hit(s, j0) && KeywordAt(s, j0) == Exec(s, 0) &&
        forall m :: m0 <= m < j0 ==> KeywordAt(s, m).None?;
      forall j': nat | j' < j0 ensures !Hit(s, j') {
        if Hit(s, j') {
          HitIsMatched(s, j');
        }
      }
      var m1: nat :| Hit(s, m1) && KeywordAt(s, m1) == FirstHit(s, 0) &&
        forall m': nat :: m' < m1 ==> !Hit(s, m');
      assert m1 == j0;
    }
  }

  /** What the classification promises: "HTML" exactly when no keyword
      stands in an accepted context; otherwise the first such keyword, with
      `youtu` reported as `youtube`, so that the raw `youtu` never escapes. */
  lemma MediaTypeMeaning(source: string)
    ensures MediaType(source) == HTML <==> forall j: nat :: !Hit(source, j)
    ensures MediaType(source) != HTML ==> exists j: nat :: (Hit(source, j) &&
      (forall m: nat :: m < j ==> !Hit(source, m)) &&
      MediaType(source) == (if KeywordAt(source, j) == Some("youtu") then "youtube" else KeywordAt(source, j).value))
    ensures MediaType(source) in {HTML, "youtube", "vimeo", "soundcloud", "baseplayer"}
    ensures MediaType(source) != "youtu"
  {
    ExecIsFirstHit(source);
    FirstHitScan(source, 0);
    if FirstHit(source, 0).Some? {
      var j: nat :| Hit(source, j) && KeywordAt(source, j) == FirstHit(source, 0) &&
        forall m': nat :: m' < j ==> !Hit(source, m');
      KeywordInitial(source, j);
    }
  }

  /** The `http://` alternative does not match "https://", so a keyword
      right after "https://" (as in "https://youtu.be/...") stands in no
      accepted context; by `MediaTypeMeaning` it is not what classifies the
      source. */
  lemma HttpsKeywordOutOfContext(s: string)
    requires |s| >= 8 && s[..8] == "https://"
    ensures !InContext(s, 8)
  {
    assert s[7] == s[..8][7] == '/';
    assert s[1..8][0] == s[1] == s[..8][1] == 't';
  }

  /** The example source from the plugin's documentation is a YouTube one. */
  lemma DocumentedExampleIsYouTube()
    ensures MediaType("http://www.youtube.com/watch?v=bUB1L3zGVvc") == "youtube"
  {
    var s := "http://www.youtube.com/watch?v=bUB1L3zGVvc";
    assert s[0..11] == "http://www.";
    assert s[11] == 'y' && s[12] == 'o' && s[13] == 'u' && s[14] == 't' && s[15] == 'u';
    assert s[11..16] == "youtu";
    assert StartsAt(s, 0, "http://www.") && StartsAt(s, 11, "youtu");
    assert KeywordAt(s, 11) == Some("youtu");
    assert AfterPrefix(s, 0, "http://www.") == Some("youtu");
  }
}
