/** Suite names as download file names. */
module Slug {

  predicate IsAlnum(c: char) {
    'a' <= c <= 'z' || '0' <= c <= '9'
  }

  predicate EndsAlnum(p: string) {
    p != "" && IsAlnum(p[|p| - 1])
  }

  /** What is used of Unicode's per-character lower-casing: a–z, 0–9 and the dash are their own lower case. */
  ghost predicate IsLowering(lower: char -> char) {
    forall c | IsAlnum(c) || c == '-' :: lower(c) == c
  }

  function Lowered(lower: char -> char, name: string): string {
    seq(|name|, i requires 0 <= i < |name| => lower(name[i]))
  }

  /** The letters and digits of s, with one dash wherever a gap parts two of them. */
  function Dashed(s: string): string {
    if s == "" then ""
    else
      var init, c := s[..|s| - 1], s[|s| - 1];
      if !IsAlnum(c) then Dashed(init)
      else if Dashed(init) != "" && !EndsAlnum(init) then Dashed(init) + "-" + [c]
      else Dashed(init) + [c]
  }

  function Slugged(lower: char -> char, name: string): string {
    var d := Dashed(Lowered(lower, name));
    if d == "" then "suite" else d
  }

  /** Non-empty, letters and digits with single dashes strictly between them. */
  predicate IsSlug(s: string) {
    s != "" && (forall i | 0 <= i < |s| :: 'a' <= s[i] <= 'z' || '0' <= s[i] <= '9' || s[i] == '-') &&
    IsAlnum(s[0]) && EndsAlnum(s) &&
    forall i | 0 < i < |s| :: IsAlnum(s[i - 1]) || IsAlnum(s[i])
  }

  function Alnums(s: string): string {
    if s == "" then ""
    else if IsAlnum(s[|s| - 1]) then Alnums(s[..|s| - 1]) + [s[|s| - 1]]
    else Alnums(s[..|s| - 1])
  }

  // ------------------------------------------------------------- the program

  /** strings.Trim(s, "-"). */
  function Trim(s: string): string {
    if s != "" && s[0] == '-' then Trim(s[1..])
    else if s != "" && s[|s| - 1] == '-' then Trim(s[..|s| - 1])
    else s
  }

  /** The builder after reading p: dashes are written when a gap opens, wanted or not. */
  function Built(p: string): string {
    (if p != "" && !IsAlnum(p[0]) then "-" else "") + Dashed(p) +
    (if p != "" && !EndsAlnum(p) && Dashed(p) != "" then "-" else "")
  }

  method Slug(name: string, lower: char -> char) returns (out: string)
    ensures out == Slugged(lower, name)
  {
    var s := Lowered(lower, name);
    var b := "";
    var prevDash := false;
    for i := 0 to |s|
      invariant b == Built(s[..i])
      invariant prevDash <==> i > 0 && !IsAlnum(s[i - 1])
    {
      LongerPrefix(s, i);
      if IsAlnum(s[i]) {
        b := b + [s[i]];
        prevDash := false;
      } else if !prevDash {
        b := b + "-";
        prevDash := true;
      }
    }
    Trimmed(s[..|s|]);
    assert s[..|s|] == s;
    out := Trim(b);
    if out == "" {
      out := "suite";
    }
  }

  lemma DashedSnoc(p: string, c: char)
    ensures Dashed(p + [c]) ==
            if !IsAlnum(c) then Dashed(p)
            else if Dashed(p) != "" && !EndsAlnum(p) then Dashed(p) + "-" + [c]
            else Dashed(p) + [c]
  {
    assert (p + [c])[..|p|] == p;
  }

  /** What one more character does to the builder. */
  lemma Longer(p: string, c: char)
    ensures Built(p + [c]) ==
            if IsAlnum(c) then Built(p) + [c] else if p == "" || EndsAlnum(p) then Built(p) + "-" else Built(p)
  {
    DashedSnoc(p, c);
    if EndsAlnum(p) {
      DashedSnoc(p[..|p| - 1], p[|p| - 1]);
      assert p == p[..|p| - 1] + [p[|p| - 1]];
    }
  }

  lemma LongerPrefix(s: string, i: nat)
    requires i < |s|
    ensures Built(s[..i + 1]) ==
            if IsAlnum(s[i]) then Built(s[..i]) + [s[i]]
            else if i == 0 || IsAlnum(s[i - 1]) then Built(s[..i]) + "-"
            else Built(s[..i])
  {
    Longer(s[..i], s[i]);
    assert s[..i + 1] == s[..i] + [s[i]];
  }

  lemma TrimRight(d: string)
    requires d == "" || IsSlug(d)
    ensures Trim(d) == d && (d != "" ==> Trim(d + "-") == d)
  {
    assert (d + "-")[..|d|] == d;
  }

  lemma TrimLeft(t: string)
    ensures Trim("-" + t) == Trim(t)
  {
    assert ("-" + t)[1..] == t;
  }

  lemma Trimmed(s: string)
    ensures Trim(Built(s)) == Dashed(s)
  {
    var d := Dashed(s);
    DashedIsSlug(s);
    TrimRight(d);
    TrimLeft(d);
    TrimLeft(d + "-");
    if d != "" {
      BuiltAround(s);
    } else {
      TrimLeft("");
    }
  }

  lemma BuiltAround(s: string)
    requires Dashed(s) != ""
    ensures var d := Dashed(s);
      Built(s) == d || Built(s) == d + "-" || Built(s) == "-" + d || Built(s) == "-" + (d + "-")
  {
  }

  // -------------------------------------------------------------- normal form

  lemma {:induction false} DashedIsSlug(s: string)
    ensures Dashed(s) == "" || IsSlug(Dashed(s))
    decreases |s|
  {
    if s != "" {
      DashedIsSlug(s[..|s| - 1]);
    }
  }

  /** A slug, cut anywhere, is already dashed, but for a dash at the cut. */
  lemma {:induction false} SlugPrefix(s: string, i: nat)
    requires IsSlug(s) && 0 < i <= |s|
    ensures Dashed(s[..i]) != "" && s[..i] == Dashed(s[..i]) + if IsAlnum(s[i - 1]) then "" else "-"
    decreases i
  {
    assert s[..i] == s[..i - 1] + [s[i - 1]];
    DashedSnoc(s[..i - 1], s[i - 1]);
    if i > 1 {
      SlugPrefix(s, i - 1);
    }
  }

  /** The normal form: what the function returns, and exactly what it leaves alone. */
  lemma SlugIsNormalForm(lower: char -> char, name: string)
    requires IsLowering(lower)
    ensures IsSlug(Slugged(lower, name))
    ensures Slugged(lower, name) == name <==> IsSlug(name)
  {
    DashedIsSlug(Lowered(lower, name));
    if IsSlug(name) {
      assert Lowered(lower, name) == name;
      SlugPrefix(name, |name|);
      assert name[..|name|] == name;
    }
  }

  lemma SlugIsIdempotent(lower: char -> char, name: string)
    requires IsLowering(lower)
    ensures Slugged(lower, Slugged(lower, name)) == Slugged(lower, name)
  {
    SlugIsNormalForm(lower, name);
    SlugIsNormalForm(lower, Slugged(lower, name));
  }

  lemma AlnumsSnoc(s: string, c: char)
    ensures Alnums(s + [c]) == if IsAlnum(c) then Alnums(s) + [c] else Alnums(s)
  {
    assert (s + [c])[..|s|] == s;
  }

  lemma {:induction false} DashedKeepsAlnums(s: string)
    ensures Alnums(Dashed(s)) == Alnums(s) && (Dashed(s) == "" <==> Alnums(s) == "")
    decreases |s|
  {
    if s != "" {
      var d, c := Dashed(s[..|s| - 1]), s[|s| - 1];
      DashedKeepsAlnums(s[..|s| - 1]);
      AlnumsSnoc(d, '-');
      AlnumsSnoc(d, c);
      AlnumsSnoc(d + "-", c);
    }
  }

  /** The letters and digits of the lower-cased name, all of them and in order; "suite" exactly if there are none. */
  lemma SlugKeepsAlnums(lower: char -> char, name: string)
    ensures var kept := Alnums(Lowered(lower, name));
      if kept == "" then Slugged(lower, name) == "suite" else Alnums(Slugged(lower, name)) == kept
  {
    DashedKeepsAlnums(Lowered(lower, name));
  }

  // ------------------------------------------------------------ where the dashes go

  function Same(): char -> char {
    (c: char) => c
  }

  /** The places in s that lower-case to a letter or digit. */
  function Places(lower: char -> char, s: string): (places: seq<nat>)
    ensures forall k | 0 <= k < |places| :: places[k] < |s|
  {
    if s == "" then []
    else
      var rest, c := Places(lower, s[..|s| - 1]), lower(s[|s| - 1]);
      if 'a' <= c <= 'z' || '0' <= c <= '9' then rest + [|s| - 1] else rest
  }

  lemma {:induction false} PlacesLowered(lower: char -> char, name: string)
    ensures Places(Same(), Lowered(lower, name)) == Places(lower, name)
    decreases |name|
  {
    if name != "" {
      PlacesLowered(lower, name[..|name| - 1]);
      assert Lowered(lower, name)[..|name| - 1] == Lowered(lower, name[..|name| - 1]);
    }
  }

  lemma PlacesSnoc(s: string, c: char)
    ensures Places(Same(), s + [c]) == Places(Same(), s) + if IsAlnum(c) then [|s|] else []
  {
    assert (s + [c])[..|s|] == s;
  }

  /** The last place is the last character exactly if that is a letter or digit. */
  lemma {:induction false} LastPlace(s: string)
    ensures var ps := Places(Same(), s);
      if EndsAlnum(s) then ps != [] && ps[|ps| - 1] == |s| - 1 else ps == [] || ps[|ps| - 1] < |s| - 1
  {
    if s != "" {
      PlacesSnoc(s[..|s| - 1], s[|s| - 1]);
      assert s == s[..|s| - 1] + [s[|s| - 1]];
    }
  }

  /** d has the letters and digits of s, and a dash between neighbours exactly where they were not neighbours in s. */
  ghost predicate PartsAtGaps(d: string, s: string) {
    var from, to := Places(Same(), s), Places(Same(), d);
    |to| == |from| &&
    (forall k | 0 <= k < |to| :: d[to[k]] == s[from[k]]) &&
    (to != [] ==> to[0] == 0 && to[|to| - 1] == |d| - 1) && (to == [] ==> d == "") &&
    forall k | 0 < k < |to| :: to[k] == to[k - 1] + if from[k] == from[k - 1] + 1 then 1 else 2
  }

  lemma PartsSkip(d: string, s: string, c: char)
    requires PartsAtGaps(d, s) && !IsAlnum(c)
    ensures PartsAtGaps(d, s + [c])
  {
    PlacesSnoc(s, c);
    var from := Places(Same(), s);
    assert forall k | 0 <= k < |from| :: (s + [c])[from[k]] == s[from[k]];
  }

  lemma PartsAdd(d: string, s: string, c: char)
    requires PartsAtGaps(d, s) && IsAlnum(c) && (d == "" || EndsAlnum(s))
    ensures PartsAtGaps(d + [c], s + [c])
  {
    PlacesSnoc(s, c);
    PlacesSnoc(d, c);
    LastPlace(s);
    CharsKept(d, s, "", c);
  }

  lemma PartsAddDashed(d: string, s: string, c: char)
    requires PartsAtGaps(d, s) && IsAlnum(c) && d != "" && !EndsAlnum(s)
    ensures PartsAtGaps(d + "-" + [c], s + [c])
  {
    PlacesSnoc(s, c);
    PlacesSnoc(d, '-');
    PlacesSnoc(d + "-", c);
    LastPlace(s);
    CharsKept(d, s, "-", c);
  }

  lemma CharsKept(d: string, s: string, gap: string, c: char)
    requires PartsAtGaps(d, s)
    ensures var from, to := Places(Same(), s), Places(Same(), d);
      forall k | 0 <= k < |to| :: (d + gap + [c])[to[k]] == (s + [c])[from[k]]
  {
  }

  lemma {:induction false} DashedPartsAtGaps(s: string)
    ensures PartsAtGaps(Dashed(s), s)
    decreases |s|
  {
    if s != "" {
      var init, c := s[..|s| - 1], s[|s| - 1];
      DashedPartsAtGaps(init);
      assert s == init + [c];
      if IsAlnum(c) {
        if Dashed(init) != "" && !EndsAlnum(init) {
          PartsAddDashed(Dashed(init), init, c);
        } else {
          PartsAdd(Dashed(init), init, c);
        }
      } else {
        PartsSkip(Dashed(init), init, c);
      }
    }
  }

  /**
   Against the name itself: the slug has its letters and digits, lower-cased, begins and ends with one, and
   parts two neighbours by one dash exactly when anything stood between them in the name.
   */
  lemma SlugPartsAtGaps(lower: char -> char, name: string)
    requires Places(lower, name) != []
    ensures var out, from := Slugged(lower, name), Places(lower, name);
      var to := Places(Same(), out);
      |to| == |from| && to[0] == 0 && to[|to| - 1] == |out| - 1 &&
      (forall k | 0 <= k < |to| :: out[to[k]] == lower(name[from[k]])) &&
      forall k | 0 < k < |to| :: to[k] == to[k - 1] + if from[k] == from[k - 1] + 1 then 1 else 2
  {
    PlacesLowered(lower, name);
    DashedPartsAtGaps(Lowered(lower, name));
  }
}
