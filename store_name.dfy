/** The name of the database a revision-history task loads into:
    `lang + "_" + date.strip('/')`. Python's `str.strip('/')` removes every
    '/' from BOTH ends of the string, not only the trailing ones. */
module StoreName {

  const Slash: char := '/'

  /** Every character of `s` at a position in `[lo, hi)` is a slash. */
  predicate SlashesIn(s: string, lo: nat, hi: nat)
    requires lo <= hi <= |s|
  {
    forall k :: lo <= k < hi ==> s[k] == Slash
  }

  /** `s` neither starts nor ends with a slash. */
  predicate Clean(s: string)
  {
    s == [] || (s[0] != Slash && s[|s| - 1] != Slash)
  }

  /** `s.lstrip('/')`: the string with its leading slashes removed. */
  function LStrip(s: string): (r: string)
    ensures |r| <= |s|
    ensures r == [] || r[0] != Slash
    decreases |s|
  {
    if |s| > 0 && s[0] == Slash then LStrip(s[1..]) else s
  }

  /** `s.rstrip('/')`: the string with its trailing slashes removed. */
  function RStrip(s: string): (r: string)
    ensures |r| <= |s|
    ensures r == [] || r[|r| - 1] != Slash
    decreases |s|
  {
    if |s| > 0 && s[|s| - 1] == Slash then RStrip(s[..|s| - 1]) else s
  }

  /** LStrip keeps a suffix of its input and cuts off only slashes. */
  lemma {:induction false} LStripCut(s: string)
    ensures LStrip(s) == s[|s| - |LStrip(s)|..]
    ensures SlashesIn(s, 0, |s| - |LStrip(s)|)
    decreases |s|
  {
    if |s| > 0 && s[0] == Slash {
      LStripCut(s[1..]);
      assert s[1..][|s| - 1 - |LStrip(s)|..] == s[|s| - |LStrip(s)|..];
      assert forall k :: 1 <= k < |s| ==> s[k] == s[1..][k - 1];
    }
  }

  /** RStrip keeps a prefix of its input and cuts off only slashes. */
  lemma {:induction false} RStripCut(s: string)
    ensures RStrip(s) == s[..|RStrip(s)|]
    ensures SlashesIn(s, |RStrip(s)|, |s|)
    decreases |s|
  {
    if |s| > 0 && s[|s| - 1] == Slash {
      var t := s[..|s| - 1];
      RStripCut(t);
      assert t[..|RStrip(s)|] == s[..|RStrip(s)|];
      assert forall k :: 0 <= k < |t| ==> s[k] == t[k];
    }
  }

  /** Right-stripping never makes the string start with a slash. */
  lemma RStripKeepsHead(s: string)
    requires s == [] || s[0] != Slash
    ensures RStrip(s) == [] || RStrip(s)[0] != Slash
  {
    var r := RStrip(s);
    RStripCut(s);
    if r != [] {
      assert r[0] == s[0];
    }
  }

  /** `s.strip('/')`: what is left once the slashes at both ends are gone. */
  function Strip(s: string): (r: string)
    ensures Clean(r)
    ensures |r| <= |s|
  {
    var l := LStrip(s);
    RStripKeepsHead(l);
    RStrip(l)
  }

  /** The stripped string is a slice `s[i..i + |Strip(s)|]` of the input with
      only slashes on either side of it. */
  lemma StripSlice(s: string) returns (i: nat)
    ensures i + |Strip(s)| <= |s| && Strip(s) == s[i..i + |Strip(s)|]
    ensures SlashesIn(s, 0, i) && SlashesIn(s, i + |Strip(s)|, |s|)
  {
    var l := LStrip(s);
    var r := RStrip(l);
    LStripCut(s);
    RStripCut(l);
    i := |s| - |l|;
    assert s[i..] == l;
    assert r == l[..|r|];
    forall k | 0 <= k < |r|
      ensures s[i..i + |r|][k] == r[k]
    {
      assert s[i + k] == l[k];
    }
    forall k | i + |r| <= k < |s|
      ensures s[k] == Slash
    {
      assert s[k] == l[k - i];
    }
  }

  /** The reference definition: a slice with only slashes outside it and no
      slash at its own ends is the stripped string. Together with the ensures
      of Strip this says Strip is exactly Python's `strip('/')`. */
  lemma {:induction false} StripUnique(s: string, i: nat, j: nat)
    requires i <= j <= |s|
    requires SlashesIn(s, 0, i) && SlashesIn(s, j, |s|)
    requires i < j ==> s[i] != Slash && s[j - 1] != Slash
    ensures Strip(s) == s[i..j]
  {
    if i == j {
      LStripDrops(s, |s|);
    } else {
      LStripDrops(s, i);
      RStripDrops(s[i..], j - i);
      assert s[i..][..j - i] == s[i..j];
    }
  }

  /** Left-stripping a string whose first `i` characters are slashes and whose
      remainder does not start with one leaves `s[i..]`. */
  lemma {:induction false} LStripDrops(s: string, i: nat)
    requires i <= |s| && SlashesIn(s, 0, i)
    requires i == |s| || s[i] != Slash
    ensures LStrip(s) == s[i..]
    decreases i
  {
    if i > 0 {
      LStripDrops(s[1..], i - 1);
      assert s[1..][i - 1..] == s[i..];
    }
  }

  /** Right-stripping a string whose characters from `j` on are slashes and
      whose prefix `s[..j]` does not end with one leaves `s[..j]`. */
  lemma {:induction false} RStripDrops(s: string, j: nat)
    requires j <= |s| && SlashesIn(s, j, |s|)
    requires j == 0 || s[j - 1] != Slash
    ensures RStrip(s) == s[..j]
    decreases |s| - j
  {
    if j < |s| {
      var t := s[..|s| - 1];
      RStripDrops(t, j);
      assert t[..j] == s[..j];
    } else {
      assert s[..j] == s;
    }
  }

  /** A string without boundary slashes is left as it is. */
  lemma StripClean(s: string)
    requires Clean(s)
    ensures Strip(s) == s
  {
    StripUnique(s, 0, |s|);
    assert s[0..|s|] == s;
  }

  /** Stripping twice is stripping once. */
  lemma StripIdempotent(s: string)
    ensures Strip(Strip(s)) == Strip(s)
  {
    StripClean(Strip(s));
  }

  /** A slash added in front makes no difference. */
  lemma StripIgnoresLeadingSlash(s: string)
    ensures Strip([Slash] + s) == Strip(s)
  {
    assert ([Slash] + s)[1..] == s;
  }

  /** A slash added at the end makes no difference. */
  lemma StripIgnoresTrailingSlash(s: string)
    ensures Strip(s + [Slash]) == Strip(s)
  {
    var r := Strip(s);
    var i := StripSlice(s);
    var b := s + [Slash];
    var j := i + |r|;
    assert b[i..j] == r;
    assert SlashesIn(b, 0, i);
    assert SlashesIn(b, j, |b|);
    StripUnique(b, i, j);
  }

  /** `lang + '_' + date.strip('/')`. */
  function DbName(lang: string, date: string): (r: string)
    ensures |r| == |lang| + 1 + |Strip(date)|
    ensures r[..|lang|] == lang && r[|lang|] == '_'
    ensures Clean(r[|lang| + 1..]) && r[|lang| + 1..] == Strip(date)
  {
    var name := lang + "_" + Strip(date);
    assert name[|lang| + 1..] == Strip(date);
    name
  }

  /** Two dates give the same database name for one language exactly when
      they agree once stripped. */
  lemma DbNameSameIff(lang: string, d1: string, d2: string)
    ensures DbName(lang, d1) == DbName(lang, d2) <==> Strip(d1) == Strip(d2)
  {
    if DbName(lang, d1) == DbName(lang, d2) {
      assert DbName(lang, d1)[|lang| + 1..] == Strip(d1);
      assert DbName(lang, d2)[|lang| + 1..] == Strip(d2);
    }
  }

  /** A trailing slash is dropped: "2023-01-01/" gives "enwiki_2023-01-01". */
  lemma TrailingSlashExample()
    ensures DbName("enwiki", "2023-01-01/") == "enwiki_2023-01-01"
  {
    StripUnique("2023-01-01/", 0, 10);
    assert "2023-01-01/"[0..10] == "2023-01-01";
  }

  /** A date without slashes is kept: "20240101" gives "scowiki_20240101". */
  lemma PlainDateExample()
    ensures DbName("scowiki", "20240101") == "scowiki_20240101"
  {
    StripUnique("20240101", 0, 8);
    assert "20240101"[0..8] == "20240101";
  }

  /** Leading slashes go too, unlike a trailing-only strip: "/2024/" gives
      "enwiki_2024". */
  lemma LeadingSlashExample()
    ensures DbName("enwiki", "/2024/") == "enwiki_2024"
  {
    StripUnique("/2024/", 1, 5);
    assert "/2024/"[1..5] == "2024";
  }

  /** A date made only of slashes leaves nothing after the underscore. */
  lemma OnlySlashesExample()
    ensures DbName("enwiki", "//") == "enwiki_"
  {
    StripUnique("//", 1, 1);
  }
}
