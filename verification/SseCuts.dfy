/** When the way a text is cut into chunks changes the blocks that are split off it. */
module SseCuts {
  import opened Base
  import opened SseText
  import opened Sse

  // Cut between u and v, the text falls into the blocks and the rest of the uncut text.
  predicate Seamless(u: string, v: string) {
    && Blocks(Normalize(u + v)) == Blocks(Normalize(u)) + Blocks(Normalize(Remaining(u) + v))
    && Remaining(u + v) == Remaining(Remaining(u) + v)
  }

  lemma SeamIs(u: string, v: string)
    ensures Seamless(u, v) <==>
              && Blocks(Normalize(u + v)) == Blocks(Normalize(u)) + Blocks(Normalize(Remaining(u) + v))
              && Remaining(u + v) == Remaining(Remaining(u) + v)
  {
  }

  lemma RemainingIs(s: string)
    ensures Remaining(s) == Rest(Normalize(s))
  {
  }

  // The uncut text, split behind what u alone gives.
  lemma WholeSplits(u: string, v: string)
    ensures Blocks(Normalize(u + v)) == Blocks(Normalize(u)) + Blocks(Glue(Remaining(u), v))
    ensures Rest(Normalize(u + v)) == Rest(Glue(Remaining(u), v))
  {
    hide *;
    var n := Normalize(u);
    var r := Rest(n);
    RemainingIs(u);
    NormalizeAppend(u, v);
    TakenAndRest(n);
    GlueKeeps(Taken(n), r, v);
    TakenSplits(n, Glue(r, v));
  }

  lemma GlueKeeps(t: string, r: string, v: string)
    requires t == "" || (|t| >= 2 && t[|t| - 2..] == "\n\n")
    ensures Glue(t + r, v) == t + Glue(r, v)
  {
    hide Normalize;
    var n := t + r;
    if r != "" {
      assert n[|n| - 1] == r[|r| - 1];
      assert n[..|n| - 1] == t + r[..|r| - 1];
      if EndsCR(r) && StartsLF(v) {
        var x := Normalize(v[1..]);
        assert t + r[..|r| - 1] + "\n" + x == t + (r[..|r| - 1] + "\n" + x);
      }
    } else {
      assert n == t;
      if t != "" { assert t[|t| - 1] == t[|t| - 2..][1]; }
    }
    assert t + r + Normalize(v) == t + (r + Normalize(v));
  }

  /** A cut goes unnoticed, whatever follows it, exactly when it leaves no CR LF over. */
  lemma SeamlessIff(u: string, v: string)
    ensures Seamless(u, v) <==> NoCRLF(Remaining(u))
  {
    hide *;
    var r := Remaining(u);
    SeamIs(u, v);
    WholeSplits(u, v);
    RemainingIs(u + v);
    RemainingIs(r + v);
    NormalizeAppend(r, v);
    NormalizeShortens(r);
    var whole, cut := Glue(r, v), Glue(Normalize(r), v);
    if Seamless(u, v) {
      SameTail(Blocks(Normalize(u)), Blocks(whole), Blocks(cut));
      SplitTells(whole, cut);
      GlueTells(r, Normalize(r), v);
    }
  }

  lemma SameTail(a: seq<string>, b: seq<string>, c: seq<string>)
    requires a + b == a + c
    ensures b == c
  {
    assert b == (a + b)[|a|..] && c == (a + c)[|a|..];
  }

  // Without a CR before a CR LF no cut leaves a CR LF over.
  lemma CleanRest(u: string)
    requires NoCRCRLF(u)
    ensures NoCRLF(Remaining(u))
  {
    hide *;
    var n := Normalize(u);
    CleanIff(u);
    RemainingIs(u);
    TakenAndRest(n);
    SuffixIsClean(Taken(n), Rest(n));
  }

  lemma SuffixIsClean(t: string, r: string)
    requires NoCRLF(t + r)
    ensures NoCRLF(r)
  {
    forall i | 0 <= i < |r| - 1 ensures !(r[i] == '\r' && r[i + 1] == '\n') {
      assert (t + r)[|t| + i] == r[i] && (t + r)[|t| + i + 1] == r[i + 1];
    }
  }

  // A cut directly after a CR CR LF leaves a CR LF over.
  lemma CutAfterDoubleCR(x: string)
    ensures !NoCRLF(Remaining(x + "\r" + "\r\n"))
  {
    hide *;
    var w := x + "\r";
    var u := w + "\r\n";
    assert "\r" == ['\r'] && u == (w + ['\r']) + ['\n'];
    Ends(x, '\r');
    Ends(w, '\r');
    NormalizeLast(x, '\r');
    NormalizeLast(w, '\r');
    NormalizeLast(w + ['\r'], '\n');
    var n := Normalize(u);
    assert n == Normalize(x) + "\r\n";
    TakenAndRest(n);
    RemainingIs(u);
    LastPairStays(Taken(n), Rest(n), Normalize(x));
  }

  lemma Ends(x: string, c: char)
    ensures EndsCR(x + [c]) <==> c == '\r'
  {
  }

  lemma LastPairStays(t: string, r: string, m: string)
    requires t + r == m + "\r\n"
    requires t == "" || (|t| >= 2 && t[|t| - 2..] == "\n\n")
    ensures !NoCRLF(r)
  {
    var n := t + r;
    assert n[|n| - 1] == '\n' && n[|n| - 2] == '\r';
    if t != "" {
      assert t[|t| - 1] == t[|t| - 2..][1] && t[|t| - 2] == t[|t| - 2..][0];
      assert n[|t| - 1] == '\n' && n[|t| - 2] == '\n';
    }
    assert |r| >= 2;
    assert r[|r| - 2] == '\r' && r[|r| - 2 + 1] == '\n';
  }

  // ---- any number of cuts --------------------------------------------------------------

  // The blocks and the rest that a text falls into when it arrives in chunks.
  function Cut(chunks: seq<string>): (seq<string>, string) {
    if chunks == [] then ([], "")
    else
      var (blocks, rest) := Cut(chunks[..|chunks| - 1]);
      var buffer := rest + chunks[|chunks| - 1];
      (blocks + Blocks(Normalize(buffer)), Remaining(buffer))
  }

  lemma PrefixIsClean(u: string, v: string)
    requires NoCRCRLF(u + v)
    ensures NoCRCRLF(u)
  {
    forall i | 0 <= i < |u| - 2 ensures !(u[i] == '\r' && u[i + 1] == '\r' && u[i + 2] == '\n') {
      var w := u + v;
      assert u[i] == w[i] && u[i + 1] == w[i + 1] && u[i + 2] == w[i + 2];
    }
  }

  lemma {:induction false} CleanCuts(chunks: seq<string>)
    requires NoCRCRLF(Concat(chunks))
    ensures Cut(chunks) == (Blocks(Normalize(Concat(chunks))), Remaining(Concat(chunks)))
  {
    if chunks != [] {
      var before, chunk := chunks[..|chunks| - 1], chunks[|chunks| - 1];
      PrefixIsClean(Concat(before), chunk);
      CleanCuts(before);
      CleanRest(Concat(before));
      SeamlessIff(Concat(before), chunk);
    }
  }

  lemma TwoChunks(u: string, v: string)
    ensures Concat([u, v]) == u + v
    ensures Cut([u, v]) == (Blocks(Normalize(u)) + Blocks(Normalize(Remaining(u) + v)), Remaining(Remaining(u) + v))
  {
    var one := [u];
    assert one[..0] == [] && [u, v][..1] == one;
    assert "" + u == u;
    assert Concat(one) == u;
    assert Cut(one) == (Blocks(Normalize(u)), Remaining(u)) by { assert [] + Blocks(Normalize(u)) == Blocks(Normalize(u)); }
  }

  // Some two chunks show it.
  lemma CutThatMatters(s: string) returns (chunks: seq<string>)
    requires !NoCRCRLF(s)
    ensures Concat(chunks) == s && Cut(chunks) != (Blocks(Normalize(s)), Remaining(s))
  {
    var x, v := AtDoubleCR(s);
    hide *;
    var u := x + "\r" + "\r\n";
    CutAfterDoubleCR(x);
    SeamlessIff(u, v);
    SeamIs(u, v);
    TwoChunks(u, v);
    chunks := [u, v];
  }

  lemma AtDoubleCR(s: string) returns (x: string, v: string)
    requires !NoCRCRLF(s)
    ensures s == (x + "\r" + "\r\n") + v
  {
    var i :| 0 <= i < |s| - 2 && s[i] == '\r' && s[i + 1] == '\r' && s[i + 2] == '\n';
    x, v := s[..i], s[i + 3..];
  }

  /** Every way to cut a text gives the blocks and the rest of the whole, exactly when no CR stands before a CR LF in it. */
  lemma CutsDoNotMatterIff(s: string)
    ensures (forall chunks :: Concat(chunks) == s ==> Cut(chunks) == (Blocks(Normalize(s)), Remaining(s))) <==> NoCRCRLF(s)
  {
    hide *;
    if NoCRCRLF(s) {
      forall chunks | Concat(chunks) == s ensures Cut(chunks) == (Blocks(Normalize(s)), Remaining(s)) { CleanCuts(chunks); }
    } else {
      var chunks := CutThatMatters(s);
    }
  }
}
