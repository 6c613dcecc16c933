/** Chains of hashes: each link hashes the 64 characters of the link before it followed by the canonical
    form of its content. The audit log and the C2 evidence chain are both built this way. */
module HashChain {

  /** A digest of strings and a canonical form of contents. */
  datatype Hashing<!F> = Hashing(digest: string -> string, canonical: F -> string) {
    function Input(previous: string, content: F): string { previous + canonical(content) }

    function Link(previous: string, content: F): string { digest(Input(previous, content)) }
  }

  /** Digests are 64 characters long, and the canonical form tells contents apart. */
  ghost predicate Regular<F(!new)>(h: Hashing<F>) {
    (forall s :: |h.digest(s)| == 64) && (forall f, g :: h.canonical(f) == h.canonical(g) ==> f == g)
  }

  function Tip(root: string, hashes: seq<string>): string {
    if hashes == [] then root else hashes[|hashes| - 1]
  }

  function Links<F>(h: Hashing<F>, root: string, contents: seq<F>): (r: seq<string>)
    ensures |r| == |contents|
    decreases |contents|
  {
    if contents == [] then [] else
      var before := Links(h, root, contents[..|contents| - 1]);
      before + [h.Link(Tip(root, before), contents[|contents| - 1])]
  }

  /** The strings that are hashed along a chain. */
  ghost function Inputs<F(!new)>(h: Hashing<F>, root: string, contents: seq<F>): set<string>
    decreases |contents|
  {
    if contents == [] then {} else
      var before := contents[..|contents| - 1];
      Inputs(h, root, before) + {h.Input(Tip(root, Links(h, root, before)), contents[|contents| - 1])}
  }

  /** No two of these strings share a digest. Asked only of the strings two given chains hash. */
  ghost predicate CollisionFree<F(!new)>(h: Hashing<F>, inputs: set<string>) {
    forall a, b :: a in inputs && b in inputs && h.digest(a) == h.digest(b) ==> a == b
  }

  /** None of these strings hashes to the root. */
  ghost predicate RootFree<F(!new)>(h: Hashing<F>, root: string, inputs: set<string>) {
    forall a :: a in inputs ==> h.digest(a) != root
  }

  lemma TipLength<F(!new)>(h: Hashing<F>, root: string, contents: seq<F>)
    requires Regular(h) && |root| == 64
    ensures |Tip(root, Links(h, root, contents))| == 64
  {}

  /** The fixed length of what comes first makes a concatenation unambiguous. */
  lemma SameInput<F(!new)>(h: Hashing<F>, p: string, q: string, f: F, g: F)
    requires Regular(h) && |p| == 64 && |q| == 64 && h.Input(p, f) == h.Input(q, g)
    ensures p == q && f == g
  {
    assert p == h.Input(p, f)[..64] && q == h.Input(q, g)[..64];
    assert h.canonical(f) == h.Input(p, f)[64..] && h.canonical(g) == h.Input(q, g)[64..];
  }

  lemma InputsDiffer<F(!new)>(h: Hashing<F>, previous: string, f: F, g: F)
    requires Regular(h) && f != g
    ensures h.Input(previous, f) != h.Input(previous, g)
  {
    var n := |previous|;
    assert h.Input(previous, f)[n..] == h.canonical(f) && h.Input(previous, g)[n..] == h.canonical(g);
  }

  /** The last string a chain hashes. */
  function LastInput<F>(h: Hashing<F>, root: string, contents: seq<F>): string
    requires contents != []
  {
    h.Input(Tip(root, Links(h, root, contents[..|contents| - 1])), contents[|contents| - 1])
  }

  lemma LastLink<F(!new)>(h: Hashing<F>, root: string, contents: seq<F>)
    requires contents != []
    ensures Tip(root, Links(h, root, contents)) == h.digest(LastInput(h, root, contents))
    ensures LastInput(h, root, contents) in Inputs(h, root, contents)
    ensures Inputs(h, root, contents[..|contents| - 1]) <= Inputs(h, root, contents)
  {}

  lemma EmptyTip<F>(h: Hashing<F>, root: string)
    ensures Tip(root, Links(h, root, [])) == root
  {}

  /** Equal last inputs: equal last contents on equal tips. */
  lemma SameLast<F(!new)>(h: Hashing<F>, root: string, a: seq<F>, b: seq<F>)
    requires Regular(h) && |root| == 64 && a != [] && b != [] && LastInput(h, root, a) == LastInput(h, root, b)
    ensures a[|a| - 1] == b[|b| - 1]
    ensures Tip(root, Links(h, root, a[..|a| - 1])) == Tip(root, Links(h, root, b[..|b| - 1]))
  {
    TipLength(h, root, a[..|a| - 1]);
    TipLength(h, root, b[..|b| - 1]);
    SameInput(h, Tip(root, Links(h, root, a[..|a| - 1])), Tip(root, Links(h, root, b[..|b| - 1])), a[|a| - 1], b[|b| - 1]);
  }

  /** Two chains from one root with the same length and the same tip are the same chain. */
  lemma {:induction false} SameLengthSameChain<F(!new)>(h: Hashing<F>, root: string, a: seq<F>, b: seq<F>)
    requires Regular(h) && |root| == 64 && |a| == |b|
    requires CollisionFree(h, Inputs(h, root, a) + Inputs(h, root, b))
    requires Tip(root, Links(h, root, a)) == Tip(root, Links(h, root, b))
    ensures a == b
    decreases |a|
  {
    hide Links, Inputs, Tip, LastInput, Regular;
    if a != [] {
      LastLink(h, root, a);
      LastLink(h, root, b);
      SameLast(h, root, a, b);
      SameLengthSameChain(h, root, a[..|a| - 1], b[..|b| - 1]);
    }
  }

  /** With a root that is no digest, the tip alone determines the chain. */
  lemma {:induction false} SameTipSameChain<F(!new)>(h: Hashing<F>, root: string, a: seq<F>, b: seq<F>)
    requires Regular(h) && |root| == 64
    requires CollisionFree(h, Inputs(h, root, a) + Inputs(h, root, b)) && RootFree(h, root, Inputs(h, root, a) + Inputs(h, root, b))
    requires Tip(root, Links(h, root, a)) == Tip(root, Links(h, root, b))
    ensures a == b
    decreases |a|
  {
    hide Links, Inputs, LastInput, Regular;
    if a != [] { LastLink(h, root, a); }
    if b != [] { LastLink(h, root, b); }
    if a == [] || b == [] {
      EmptyTip(h, root);
    } else {
      SameLast(h, root, a, b);
      SameTipSameChain(h, root, a[..|a| - 1], b[..|b| - 1]);
    }
  }

  lemma {:induction false} LinksPrefix<F>(h: Hashing<F>, root: string, contents: seq<F>, n: nat)
    requires n <= |contents|
    ensures Links(h, root, contents)[..n] == Links(h, root, contents[..n])
    decreases |contents|
  {
    if n < |contents| {
      var before := contents[..|contents| - 1];
      LinksPrefix(h, root, before, n);
      assert before[..n] == contents[..n];
    } else {
      assert contents[..n] == contents;
    }
  }

  lemma {:induction false} InputsPrefix<F(!new)>(h: Hashing<F>, root: string, contents: seq<F>, n: nat)
    requires n <= |contents|
    ensures Inputs(h, root, contents[..n]) <= Inputs(h, root, contents)
    decreases |contents|
  {
    if n < |contents| {
      var before := contents[..|contents| - 1];
      InputsPrefix(h, root, before, n);
      assert before[..n] == contents[..n];
    } else {
      assert contents[..n] == contents;
    }
  }

  /** No hash comes back: the tips after i and after j links differ. */
  lemma TipsDiffer<F(!new)>(h: Hashing<F>, root: string, contents: seq<F>, i: nat, j: nat)
    requires Regular(h) && |root| == 64 && i < j <= |contents|
    requires CollisionFree(h, Inputs(h, root, contents)) && RootFree(h, root, Inputs(h, root, contents))
    ensures Tip(root, Links(h, root, contents[..i])) != Tip(root, Links(h, root, contents[..j]))
  {
    InputsPrefix(h, root, contents, i);
    InputsPrefix(h, root, contents, j);
    if Tip(root, Links(h, root, contents[..i])) == Tip(root, Links(h, root, contents[..j])) {
      SameTipSameChain(h, root, contents[..i], contents[..j]);
    }
  }
}
