/** A file system as a tree, with the few operations a directory migration needs. */
module FileTree {
  import opened Options

  datatype Node = File(content: string) | Dir(entries: map<string, Node>)

  type Path = seq<string>

  function Lookup(n: Node, p: Path): Option<Node> {
    if p == [] then Some(n)
    else if n.Dir? && p[0] in n.entries then Lookup(n.entries[p[0]], p[1..])
    else None
  }

  predicate Exists(n: Node, p: Path) {
    Lookup(n, p).Some?
  }

  predicate IsDir(n: Node, p: Path) {
    Exists(n, p) && Lookup(n, p).value.Dir?
  }

  /** The content of the file at a path. */
  function FileAt(n: Node, p: Path): Option<string> {
    var found := Lookup(n, p);
    if found.Some? && found.value.File? then Some(found.value.content) else None
  }

  /** No file stands in the way of the parent directories. */
  predicate CanPut(n: Node, p: Path) {
    p == [] || (n.Dir? && (p[0] in n.entries ==> CanPut(n.entries[p[0]], p[1..])))
  }

  const EMPTY := Dir(map[])

  /** `mkdir -p` of the parent, then placing `sub`. */
  function Put(n: Node, p: Path, sub: Node): Node
    requires CanPut(n, p)
  {
    if p == [] then sub
    else if p[0] in n.entries then Dir(n.entries[p[0] := Put(n.entries[p[0]], p[1..], sub)])
    else Dir(n.entries[p[0] := Chain(p[1..], sub)])
  }

  /** A new chain of directories down to `sub`. */
  function Chain(p: Path, sub: Node): Node {
    if p == [] then sub else Dir(map[p[0] := Chain(p[1..], sub)])
  }

  function Delete(n: Node, p: Path): Node {
    if p == [] || n.File? || p[0] !in n.entries then n
    else if |p| == 1 then Dir(n.entries - {p[0]})
    else Dir(n.entries[p[0] := Delete(n.entries[p[0]], p[1..])])
  }

  /** Neither path is inside the other. */
  predicate Apart(p: Path, q: Path) {
    !(p <= q) && !(q <= p)
  }

  lemma ApartTails(p: Path, q: Path)
    requires p != [] && q != [] && p[0] == q[0]
    ensures p <= q <==> p[1..] <= q[1..]
    ensures Apart(p, q) <==> Apart(p[1..], q[1..])
  {
    assert p == [p[0]] + p[1..] && q == [q[0]] + q[1..];
  }

  lemma {:induction false} LookupBelow(n: Node, p: Path, q: Path)
    ensures Lookup(n, p + q) == if Exists(n, p) then Lookup(Lookup(n, p).value, q) else None
  {
    if p == [] {
      assert p + q == q;
    } else {
      assert (p + q)[1..] == p[1..] + q;
      if n.Dir? && p[0] in n.entries {
        LookupBelow(n.entries[p[0]], p[1..], q);
      }
    }
  }

  lemma NotBelowAbsent(n: Node, p: Path, q: Path)
    requires !Exists(n, p) && Exists(n, q)
    ensures !(p <= q)
  {
    var rest := if p <= q then q[|p|..] else [];
    LookupBelow(n, p, rest);
    assert p <= q ==> p + rest == q;
  }

  lemma {:induction false} LookupChain(p: Path, sub: Node, q: Path)
    ensures p <= q ==> Lookup(Chain(p, sub), q) == Lookup(sub, q[|p|..])
    ensures !(p <= q) ==> FileAt(Chain(p, sub), q) == None
    ensures Apart(p, q) ==> Lookup(Chain(p, sub), q) == None
  {
    if p != [] && q != [] && p[0] == q[0] {
      ApartTails(p, q);
      LookupChain(p[1..], sub, q[1..]);
      assert p <= q ==> q[1..][|p| - 1..] == q[|p|..];
    }
  }

  /** What is found after placing a subtree. */
  lemma {:induction false} LookupPut(n: Node, p: Path, sub: Node, q: Path)
    requires CanPut(n, p)
    ensures p <= q ==> Lookup(Put(n, p, sub), q) == Lookup(sub, q[|p|..])
    ensures Apart(p, q) ==> Lookup(Put(n, p, sub), q) == Lookup(n, q)
    ensures !(p <= q) ==> FileAt(Put(n, p, sub), q) == FileAt(n, q)
    ensures IsDir(n, q) && !(p <= q) ==> IsDir(Put(n, p, sub), q)
  {
    if p != [] && q != [] && p[0] == q[0] {
      ApartTails(p, q);
      assert p <= q ==> q[1..][|p| - 1..] == q[|p|..];
      if p[0] in n.entries {
        LookupPut(n.entries[p[0]], p[1..], sub, q[1..]);
      } else {
        LookupChain(p[1..], sub, q[1..]);
      }
    }
  }

  lemma {:induction false} CanPutAfterPut(n: Node, p: Path, sub: Node, q: Path)
    requires CanPut(n, p) && CanPut(n, q) && Apart(p, q)
    ensures CanPut(Put(n, p, sub), q)
  {
    if p[0] == q[0] {
      ApartTails(p, q);
      if p[0] in n.entries {
        CanPutAfterPut(n.entries[p[0]], p[1..], sub, q[1..]);
      } else {
        CanPutInChain(p[1..], sub, q[1..]);
      }
    }
  }

  lemma {:induction false} CanPutThere(n: Node, p: Path, sub: Node)
    requires CanPut(n, p)
    ensures CanPut(Put(n, p, sub), p)
  {
    if p != [] {
      if p[0] in n.entries {
        CanPutThere(n.entries[p[0]], p[1..], sub);
      } else {
        CanPutChain(p[1..], sub);
      }
    }
  }

  lemma {:induction false} CanPutChain(p: Path, sub: Node)
    ensures CanPut(Chain(p, sub), p)
  {
    if p != [] {
      CanPutChain(p[1..], sub);
    }
  }

  lemma {:induction false} CanPutInChain(p: Path, sub: Node, q: Path)
    requires Apart(p, q)
    ensures CanPut(Chain(p, sub), q)
  {
    if p[0] == q[0] {
      ApartTails(p, q);
      CanPutInChain(p[1..], sub, q[1..]);
    }
  }

  /** What is found after removing a subtree. */
  lemma {:induction false} LookupDelete(n: Node, p: Path, q: Path)
    requires p != []
    ensures p <= q ==> Lookup(Delete(n, p), q) == None
    ensures Apart(p, q) ==> Lookup(Delete(n, p), q) == Lookup(n, q)
    ensures !(p <= q) ==> FileAt(Delete(n, p), q) == FileAt(n, q)
    ensures IsDir(n, q) && !(p <= q) ==> IsDir(Delete(n, p), q)
    ensures Exists(Delete(n, p), q) ==> Exists(n, q)
  {
    if q != [] && p[0] == q[0] && n.Dir? && p[0] in n.entries {
      ApartTails(p, q);
      if |p| > 1 {
        LookupDelete(n.entries[p[0]], p[1..], q[1..]);
      }
    }
  }

  lemma {:induction false} CanPutAfterDelete(n: Node, p: Path, q: Path)
    requires p != [] && CanPut(n, q)
    ensures CanPut(Delete(n, p), q)
  {
    if q != [] && p[0] == q[0] && p[0] in n.entries && |p| > 1 {
      CanPutAfterDelete(n.entries[p[0]], p[1..], q[1..]);
    }
  }

  lemma {:induction false} CanPutInside(n: Node, p: Path, name: string)
    requires IsDir(n, p)
    ensures CanPut(n, p + [name])
  {
    if p != [] {
      assert (p + [name])[1..] == p[1..] + [name];
      CanPutInside(n.entries[p[0]], p[1..], name);
    }
  }

  lemma {:induction false} CanPutBeforePut(n: Node, p: Path, sub: Node, q: Path)
    requires CanPut(n, p) && Apart(p, q) && CanPut(Put(n, p, sub), q)
    ensures CanPut(n, q)
  {
    if p[0] == q[0] && p[0] in n.entries {
      ApartTails(p, q);
      CanPutBeforePut(n.entries[p[0]], p[1..], sub, q[1..]);
    }
  }

  lemma {:induction false} CanPutBeforeDelete(n: Node, p: Path, q: Path)
    requires p != [] && Apart(p, q) && CanPut(Delete(n, p), q)
    ensures CanPut(n, q)
  {
    if p[0] == q[0] && n.Dir? && p[0] in n.entries {
      ApartTails(p, q);
      if |p| > 1 {
        CanPutBeforeDelete(n.entries[p[0]], p[1..], q[1..]);
      }
    }
  }

  /** The tree with what is at `src` at `p` instead. */
  function Relocated(n: Node, src: Path, p: Path): Node
    requires src != [] && Exists(n, src) && CanPut(n, p)
  {
    CanPutAfterDelete(n, src, p);
    Put(Delete(n, src), p, Lookup(n, src).value)
  }

  /** `shutil.move` of a directory after `mkdir -p` of the target's parent: into the target when
      that is a directory, otherwise onto its name; `None` when a call raises. */
  function Shifted(n: Node, src: Path, dst: Path): Option<Node>
    requires src != [] && Exists(n, src)
  {
    if !CanPut(n, dst) then None
    else
      var target := if IsDir(n, dst) then dst + [src[|src| - 1]] else dst;
      assert CanPut(n, target) by { if IsDir(n, dst) { CanPutInside(n, dst, src[|src| - 1]); } }
      if Exists(n, target) then None else Some(Relocated(n, src, target))
  }

  /** A move to a free path: found there whole, gone from its old place, and nothing else differs. */
  lemma RelocatedLookup(n: Node, src: Path, p: Path, q: Path)
    requires src != [] && Exists(n, src) && Apart(src, p) && CanPut(n, p) && !Exists(n, p)
    ensures var m := Relocated(n, src, p);
            && (p <= q ==> Lookup(m, q) == Lookup(n, src + q[|p|..]))
            && (src <= q ==> Lookup(m, q) == None)
            && (Apart(src, q) && Apart(p, q) ==> Lookup(m, q) == Lookup(n, q))
            && (!(p <= q) && !(src <= q) ==> FileAt(m, q) == FileAt(n, q))
            && (IsDir(n, q) && !(p <= q) && !(src <= q) ==> IsDir(m, q))
  {
    CanPutAfterDelete(n, src, p);
    LookupDelete(n, src, q);
    LookupPut(Delete(n, src), p, Lookup(n, src).value, q);
    if p <= q {
      LookupBelow(n, src, q[|p|..]);
    }
    if src <= q {
      PrefixesApart(src, p, q);
    }
  }

  /** ... and the same paths can be created. */
  lemma RelocatedCanPut(n: Node, src: Path, p: Path, q: Path)
    requires src != [] && Exists(n, src) && Apart(src, p) && CanPut(n, p)
    requires Apart(src, q) && (p == q || Apart(p, q))
    ensures CanPut(Relocated(n, src, p), q) <==> CanPut(n, q)
  {
    var sub, rest := Lookup(n, src).value, Delete(n, src);
    CanPutAfterDelete(n, src, p);
    if p == q {
      CanPutThere(rest, p, sub);
    } else {
      if CanPut(n, q) {
        CanPutAfterDelete(n, src, q);
        CanPutAfterPut(rest, p, sub, q);
      }
      if CanPut(Put(rest, p, sub), q) {
        CanPutBeforePut(rest, p, sub, q);
        CanPutBeforeDelete(n, src, q);
      }
    }
  }

  lemma Prefixes(p: Path, r: Path, q: Path)
    requires p <= q
    ensures q <= r ==> p <= r
    ensures r <= q ==> p <= r || r <= p
  {
    if q <= r {
      assert r[..|p|] == p;
    }
    if r <= q {
      assert if |p| <= |r| then r[..|p|] == p else p[..|r|] == r;
    }
  }

  /** Paths inside apart directories are apart. */
  lemma PrefixesApart(p: Path, r: Path, q: Path)
    requires Apart(p, r) && p <= q
    ensures Apart(q, r)
  {
    Prefixes(p, r, q);
  }
}
