/** Identifier syntax (aisecure/schema.py) and the mapping of free-form device and
    share names onto it (aisecure/connectors/importer.py, `slug`). The 16-digit hash
    is a parameter: what is claimed of it is always said as a hypothesis about the
    names at hand. */
module Names {
  predicate Alphanumeric(c: char) { 'A' <= c <= 'Z' || 'a' <= c <= 'z' || '0' <= c <= '9' }

  /** Characters a raw name may keep; the colon marks generated identifiers. */
  predicate Kept(c: char) { Alphanumeric(c) || c == '_' || c == '.' || c == '-' }

  predicate Legal(s: string) {
    && 1 <= |s| <= 80 && Alphanumeric(s[0])
    && forall i :: 0 <= i < |s| ==> Kept(s[i]) || s[i] == ':'
  }

  predicate Hex(s: string) {
    |s| == 16 && forall i :: 0 <= i < |s| ==> '0' <= s[i] <= '9' || 'a' <= s[i] <= 'f'
  }

  function StripLeft(s: string): (r: string)
    ensures |r| <= |s| && r == s[|s| - |r|..]
    ensures r == [] || r[0] != '-'
    ensures forall i :: 0 <= i < |s| - |r| ==> s[i] == '-'
  {
    if s != [] && s[0] == '-' then StripLeft(s[1..]) else s
  }

  function StripRight(s: string): (r: string)
    ensures r <= s
    ensures r == [] || r[|r| - 1] != '-'
    ensures forall i :: |r| <= i < |s| ==> s[i] == '-'
  {
    if s != [] && s[|s| - 1] == '-' then StripRight(s[..|s| - 1]) else s
  }

  function Strip(s: string): string { StripRight(StripLeft(s)) }

  function Replaced(s: string): (r: string)
    ensures |r| == |s|
    ensures forall i :: 0 <= i < |s| ==> r[i] == if Kept(s[i]) then s[i] else '-'
  {
    if s == [] then [] else [if Kept(s[0]) then s[0] else '-'] + Replaced(s[1..])
  }

  function Cleaned(s: string): string { Strip(Replaced(s)) }

  function Head(cleaned: string): string {
    var cut := Strip(if |cleaned| > 60 then cleaned[..60] else cleaned);
    var head := if cut == "" then "asset" else cut;
    if Alphanumeric(head[0]) then head else "x" + head
  }

  function Generated(s: string, digest: string -> string): string {
    Head(Cleaned(s)) + ":" + digest(s)
  }

  /** The name passes through unchanged. */
  predicate Passes(s: string) { Legal(s) && Cleaned(s) == s }

  function Slug(s: string, digest: string -> string): string {
    if Passes(s) then s else Generated(s, digest)
  }

  // ---- properties ---------------------------------------------------------------------

  ghost predicate AllKept(s: string) { forall i :: 0 <= i < |s| ==> Kept(s[i]) }

  lemma StripKeeps(s: string)
    requires AllKept(s)
    ensures AllKept(Strip(s)) && |Strip(s)| <= |s|
    ensures Strip(s) != "" ==> Strip(s)[0] != '-'
  {
    var l := StripLeft(s);
    assert AllKept(l) by {
      forall i | 0 <= i < |l| ensures Kept(l[i]) { assert l[i] == s[|s| - |l| + i]; }
    }
    var r := StripRight(l);
    forall i | 0 <= i < |r| ensures Kept(r[i]) { assert r[i] == l[i]; }
  }

  lemma Joined(a: string, b: string)
    requires AllKept(a) && AllKept(b)
    ensures AllKept(a + b)
  {
  }

  lemma HeadShape(cleaned: string)
    requires AllKept(cleaned)
    ensures 1 <= |Head(cleaned)| <= 61 && Alphanumeric(Head(cleaned)[0])
    ensures AllKept(Head(cleaned))
  {
    hide Strip, StripLeft, StripRight;
    var prefix := if |cleaned| > 60 then cleaned[..60] else cleaned;
    StripKeeps(prefix);
    var cut := Strip(prefix);
    var head := if cut == "" then "asset" else cut;
    assert AllKept("asset");
    Joined("x", head);
  }

  lemma ColonFree(s: string)
    requires AllKept(s)
    ensures ':' !in s
  {
  }

  /** Whatever the name, the result is a legal identifier; only generated ones hold
      a colon. */
  lemma SlugLegal(s: string, digest: string -> string)
    requires Hex(digest(s))
    ensures Legal(Slug(s, digest))
    ensures ':' in Slug(s, digest) <==> !Passes(s)
  {
    hide Head, Strip, Replaced;
    assert AllKept(Replaced(s));
    StripKeeps(Replaced(s));
    if Passes(s) {
      ColonFree(s);
    } else {
      HeadShape(Cleaned(s));
      GeneratedLegal(Head(Cleaned(s)), digest(s));
    }
  }

  lemma GeneratedLegal(head: string, hash: string)
    requires 1 <= |head| <= 61 && Alphanumeric(head[0]) && AllKept(head) && Hex(hash)
    ensures Legal(head + ":" + hash) && ':' in head + ":" + hash
  {
    var r := head + ":" + hash;
    forall i | 0 <= i < |r| ensures Kept(r[i]) || r[i] == ':' {
      if i < |head| { assert Kept(head[i]); } else if i > |head| { assert r[i] == hash[i - |head| - 1]; }
    }
    assert r[|head|] == ':';
  }

  lemma ReplacedFixed(s: string)
    ensures Replaced(s) == s <==> AllKept(s)
  {
    var r := Replaced(s);
    if r == s {
      forall i | 0 <= i < |s| ensures Kept(s[i]) { assert r[i] == s[i]; }
    }
  }

  lemma StripWhole(s: string)
    requires |Strip(s)| == |s|
    ensures Strip(s) == s
  {
    hide StripLeft, StripRight;
    var l := StripLeft(s);
    assert l == s[|s| - |l|..] && |l| == |s|;
    assert l == s;
  }

  lemma StripFixed(s: string)
    requires s != ""
    ensures Strip(s) == s <==> s[0] != '-' && s[|s| - 1] != '-'
  {
    if s[0] != '-' && s[|s| - 1] != '-' {
      assert StripLeft(s) == s && StripRight(s) == s;
    } else if Strip(s) == s {
      StripEnds(s);
    }
  }

  lemma StripEnds(s: string)
    ensures Strip(s) != "" ==> Strip(s)[0] != '-' && Strip(s)[|Strip(s)| - 1] != '-'
  {
    hide StripLeft, StripRight;
    var l := StripLeft(s);
    var r := StripRight(l);
    if r != "" { assert r[0] == l[0]; }
  }

  /** A name passes exactly when it is a legal identifier without a colon that does
      not end in a dash. */
  lemma PassesExactly(s: string)
    ensures Passes(s) <==> Legal(s) && ':' !in s && s[|s| - 1] != '-'
  {
    hide Strip, Replaced;
    if Legal(s) {
      ReplacedFixed(s);
      StripFixed(s);
      if ':' !in s {
        forall i | 0 <= i < |s| ensures Kept(s[i]) { assert s[i] in s; }
      } else if Passes(s) {
        StripKeeps(Replaced(s));
        ColonFree(s);
      }
      if Cleaned(s) == s {
        StripWhole(Replaced(s));
      }
    }
  }

  /** The name ends in a colon and its own hash, after a head of 59 or 60 kept characters
      that starts with a letter or digit and does not end in a dash. */
  predicate SpellsHash(s: string, digest: string -> string) {
    && (|s| == 76 || |s| == 77) && s[|s| - 17] == ':' && s[|s| - 16..] == digest(s)
    && Alphanumeric(s[0]) && s[|s| - 18] != '-' && forall i :: 0 <= i < |s| - 17 ==> Kept(s[i])
  }

  lemma ReplacedSpelled(h: string, hash: string)
    requires AllKept(h) && Hex(hash)
    ensures Replaced(h + ":" + hash) == h + "-" + hash
  {
    var s, r := h + ":" + hash, h + "-" + hash;
    forall i | 0 <= i < |s| ensures Replaced(s)[i] == r[i] {
      if i < |h| { assert s[i] == h[i]; } else if i > |h| { assert s[i] == hash[i - |h| - 1]; }
    }
  }

  /** A head that starts with a letter or digit only loses dashes at its end. */
  lemma HeadIs(c: string)
    requires c != "" && Alphanumeric(c[0])
    ensures Head(c) == StripRight(if |c| > 60 then c[..60] else c) && |Head(c)| <= 60
  {
    var cut := if |c| > 60 then c[..60] else c;
    assert StripLeft(cut) == cut;
    var r := StripRight(cut);
    assert r != "";
    assert r[0] == cut[0];
  }

  lemma StripRightFixed(s: string)
    requires s != ""
    ensures StripRight(s) == s <==> s[|s| - 1] != '-'
    ensures s[|s| - 1] == '-' ==> StripRight(s) == StripRight(s[..|s| - 1]) && |StripRight(s)| < |s|
  {
  }

  /** Cutting a head, a dash and a hash at 60 characters gives back the head exactly when
      it has 59 or 60 characters and does not end in a dash. */
  lemma HeadReturns(h: string, hash: string)
    requires h != "" && Alphanumeric(h[0]) && Hex(hash)
    ensures Head(h + "-" + hash) == h <==> (|h| == 59 || |h| == 60) && h[|h| - 1] != '-'
  {
    hide StripLeft, StripRight, Head;
    var c := h + "-" + hash;
    HeadIs(c);
    var cut := if |c| > 60 then c[..60] else c;
    StripRightFixed(cut);
    StripRightFixed(h);
    if |h| == 60 {
      assert cut == h;
    } else if |h| == 59 {
      assert cut == h + "-" && cut[..59] == h;
    } else if |h| < 59 {
      assert cut[|cut| - 1] == hash[|cut| - |h| - 2];
    }
  }

  lemma CleanedSpelled(h: string, hash: string)
    requires h != "" && AllKept(h) && Alphanumeric(h[0]) && Hex(hash)
    ensures Cleaned(h + ":" + hash) == h + "-" + hash
  {
    hide Strip, Replaced;
    ReplacedSpelled(h, hash);
    var c := h + "-" + hash;
    assert c[0] == h[0] && c[|c| - 1] == hash[15];
    StripFixed(c);
  }

  /** A generated identifier is the name it was made from only for a name that spells out
      its own hash in this shape. */
  lemma GeneratedIsItself(s: string, digest: string -> string)
    requires Hex(digest(s))
    ensures Generated(s, digest) == s <==> SpellsHash(s, digest)
  {
    hide Head, Strip, Replaced, Hex;
    if Generated(s, digest) == s {
      var h := Head(Cleaned(s));
      StripKeeps(Replaced(s));
      HeadShape(Cleaned(s));
      CleanedSpelled(h, digest(s));
      HeadReturns(h, digest(s));
      SpelledOut(s, h, digest);
    }
    if SpellsHash(s, digest) {
      var h := s[..|s| - 17];
      assert s == h + ":" + digest(s);
      assert AllKept(h) && h[0] == s[0] && h[|h| - 1] == s[|s| - 18];
      CleanedSpelled(h, digest(s));
      HeadReturns(h, digest(s));
    }
  }

  lemma SpelledOut(s: string, h: string, digest: string -> string)
    requires s == h + ":" + digest(s) && Hex(digest(s)) && AllKept(h) && (|h| == 59 || |h| == 60)
    requires Alphanumeric(h[0]) && h[|h| - 1] != '-'
    ensures SpellsHash(s, digest)
  {
    forall i | 0 <= i < |s| - 17 ensures Kept(s[i]) { assert s[i] == h[i]; }
  }

  /** A name is unchanged exactly when it is a legal identifier without colon that does not
      end in a dash, or spells out its own hash: never with a colon below 76 characters. */
  lemma UnchangedExactly(s: string, digest: string -> string)
    requires Hex(digest(s))
    ensures Slug(s, digest) == s <==> (Legal(s) && ':' !in s && s[|s| - 1] != '-') || SpellsHash(s, digest)
  {
    hide Legal, Generated, Passes, SpellsHash;
    PassesExactly(s);
    GeneratedIsItself(s, digest);
  }

  /** Any head of 59 or 60 kept characters, begun by a letter or digit and not ended by a
      dash, and any hash value are such a name, for a hash that takes this value on it. */
  lemma SpelledHashPasses(h: string, hash: string)
    requires (|h| == 59 || |h| == 60) && AllKept(h) && Alphanumeric(h[0]) && h[|h| - 1] != '-' && Hex(hash)
    ensures var s := h + ":" + hash; ':' in s && Slug(s, _ => hash) == s
  {
    hide Slug, Legal;
    var s := h + ":" + hash;
    assert s[|h|] == ':';
    SpelledOut(s, h, _ => hash);
    UnchangedExactly(s, _ => hash);
  }

  /** Every character but letters, digits, underscores, dots and dashes became a dash. */
  ghost predicate Dashed(r: string, s: string) {
    && |r| == |s|
    && forall i :: 0 <= i < |s| ==>
         r[i] == if 'A' <= s[i] <= 'Z' || 'a' <= s[i] <= 'z' || '0' <= s[i] <= '9' || s[i] in {'_', '.', '-'}
                 then s[i] else '-'
  }

  /** Only dashes stand around the characters from `a` to before `b`, and none at their ends. */
  ghost predicate Inside(s: string, a: nat, b: nat) {
    && a <= b <= |s| && (forall i :: 0 <= i < a || b <= i < |s| ==> s[i] == '-')
    && (a < b ==> s[a] != '-' && s[b - 1] != '-')
  }

  /** What is left without the dashes around. */
  ghost predicate Trimmed(t: string, s: string) { exists a: nat, b: nat :: Inside(s, a, b) && t == s[a..b] }

  lemma StripTrims(s: string)
    ensures Trimmed(Strip(s), s)
  {
    hide StripLeft, StripRight;
    var l := StripLeft(s);
    var r := StripRight(l);
    var a, b := |s| - |l|, |s| - |l| + |r|;
    assert l == s[a..] && r == l[..|r|];
    forall i | 0 <= i < a || b <= i < |s| ensures s[i] == '-' {
      if b <= i { assert l[i - a] == s[i]; }
    }
    assert Inside(s, a, b) && r == s[a..b];
  }

  /** A name that does not pass becomes a head, a colon and its hash. The head is the name with
      dashes for what may not be kept, trimmed, cut at 60 characters and trimmed again, `asset`
      if nothing is left, and marked with an x unless it starts with a letter or digit. */
  lemma SlugExactly(s: string, digest: string -> string)
    ensures Passes(s) ==> Slug(s, digest) == s
    ensures !Passes(s) ==>
              exists kept, clean, cut ::
                && Dashed(kept, s) && Trimmed(clean, kept) && Trimmed(cut, if |clean| > 60 then clean[..60] else clean)
                && Slug(s, digest) ==
                   (if cut == "" then "asset"
                    else if 'A' <= cut[0] <= 'Z' || 'a' <= cut[0] <= 'z' || '0' <= cut[0] <= '9' then cut
                    else "x" + cut)
                   + ":" + digest(s)
  {
    hide Strip, Trimmed, Legal;
    var kept, clean := Replaced(s), Cleaned(s);
    var short := if |clean| > 60 then clean[..60] else clean;
    assert Dashed(kept, s);
    StripTrims(kept);
    StripTrims(short);
    assert Trimmed(clean, kept) && Trimmed(Strip(short), short);
  }

  /** A generated identifier never equals one that passed through, and two names
      share an identifier only if they share their hash too. */
  lemma SlugInjective(s: string, t: string, digest: string -> string)
    requires Hex(digest(s)) && Hex(digest(t))
    requires Slug(s, digest) == Slug(t, digest)
    ensures Passes(s) <==> Passes(t)
    ensures s == t || (!Passes(s) && digest(s) == digest(t))
  {
    hide Head, Strip, Replaced, Passes, Hex;
    SlugLegal(s, digest);
    SlugLegal(t, digest);
    if !Passes(s) {
      SameEnd(Head(Cleaned(s)) + ":", digest(s), Head(Cleaned(t)) + ":", digest(t));
    }
  }

  lemma SameEnd(a: string, x: string, b: string, y: string)
    requires a + x == b + y && Hex(x) && Hex(y)
    ensures x == y
  {
    assert (a + x)[|a|..] == x && (b + y)[|b|..] == y;
  }
}
