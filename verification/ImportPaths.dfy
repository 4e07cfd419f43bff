/** The logical field paths of an import candidate: `product.x`, `operation.x`, `prices[i].x` and
    `documents[i].x`, and which of them a piece of evidence covers. */
module ImportPaths {
  import opened Decimal

  datatype Kind = Product | Operation | Price | Document {
    /** Prices and documents are lists of objects. */
    predicate Listed() { Price? || Document? }
  }

  function Stem(kind: Kind): string {
    match kind
    case Product => "product"
    case Operation => "operation"
    case Price => "prices"
    case Document => "documents"
  }

  /** The path of an object; the index matters only in a list. */
  function Prefix(kind: Kind, index: nat): string {
    if kind.Listed() then Stem(kind) + ['['] + Dec(index) + [']'] else Stem(kind)
  }

  function FieldPath(prefix: string, name: string): string {
    prefix + ['.'] + name
  }

  /** The paths as they are written: product.x, operation.x, prices[i].x and documents[i].x. */
  lemma PathTexts(index: nat, name: string)
    ensures FieldPath(Prefix(Product, index), name) == "product." + name
    ensures FieldPath(Prefix(Operation, index), name) == "operation." + name
    ensures FieldPath(Prefix(Price, index), name) == "prices[" + Dec(index) + "]." + name
    ensures FieldPath(Prefix(Document, index), name) == "documents[" + Dec(index) + "]." + name
  {
  }

  /** _evidence_covers_path: the path itself, or anything below it. */
  predicate Covers(evidence: string, path: string) {
    evidence == path || evidence + ['.'] <= path
  }

  predicate Plain(s: string) {
    forall i :: 0 <= i < |s| ==> s[i] != '.'
  }

  lemma PrefixIsPlain(kind: Kind, index: nat)
    ensures Plain(Prefix(kind, index))
  {
    DecIsDigits(index);
  }

  /** The stem is what precedes the first bracket. */
  lemma BracketPlace(a: string, b: string, x: string, y: string)
    requires forall i :: 0 <= i < |a| ==> a[i] != '['
    requires forall i :: 0 <= i < |b| ==> b[i] != '['
    requires a + ['['] + x == b + ['['] + y
    ensures a == b && x == y
  {
    var s := a + ['['] + x;
    assert s[|a|] == '[' == s[|b|];
    assert |a| == |b|;
    assert a == s[..|a|] && b == s[..|b|];
    assert x == s[|a| + 1..] && y == s[|b| + 1..];
  }

  lemma NoBracket(a: string, b: string, x: string)
    requires forall i :: 0 <= i < |b| ==> b[i] != '['
    ensures a + ['['] + x != b
  {
    var s := a + ['['] + x;
    assert s[|a|] == '[';
  }

  lemma ListedShape(kind: Kind, index: nat)
    requires kind.Listed()
    ensures Prefix(kind, index) == Stem(kind) + ['['] + (Dec(index) + [']'])
  {
  }

  /** Different objects have different paths: prices[1] is not prices[10]. */
  lemma PrefixInjective(a: Kind, i: nat, b: Kind, j: nat)
    requires Prefix(a, i) == Prefix(b, j)
    ensures a == b && (a.Listed() ==> i == j)
  {
    if a.Listed() {
      ListedShape(a, i);
      if b.Listed() {
        ListedShape(b, j);
        BracketPlace(Stem(a), Stem(b), Dec(i) + [']'], Dec(j) + [']']);
        assert Dec(i) == (Dec(i) + [']'])[..|Dec(i)|];
        assert Dec(j) == (Dec(j) + [']'])[..|Dec(j)|];
        DecInjective(i, j);
      } else {
        NoBracket(Stem(a), Stem(b), Dec(i) + [']']);
      }
    } else if b.Listed() {
      ListedShape(b, j);
      NoBracket(Stem(b), Stem(a), Dec(j) + [']']);
    } else {
    }
  }

  /** A field path has one dot, so what strictly covers it is its object's path. */
  lemma StrictlyCoversOnlyOwn(evidence: string, prefix: string, name: string)
    requires Plain(prefix) && Plain(name)
    ensures evidence + ['.'] <= FieldPath(prefix, name) <==> evidence == prefix
  {
    var p, e := FieldPath(prefix, name), evidence + ['.'];
    if e <= p {
      assert p[|evidence|] == e[|evidence|] == '.';
      assert |evidence| == |prefix|;
      assert evidence == e[..|evidence|] == p[..|evidence|] == prefix;
    }
  }

  /** Evidence for a field path covers that path and no other. */
  lemma FieldCoversItself(q: string, m: string, prefix: string, name: string)
    requires Plain(q) && Plain(prefix) && Plain(name)
    ensures Covers(FieldPath(q, m), FieldPath(prefix, name)) <==> FieldPath(q, m) == FieldPath(prefix, name)
  {
    StrictlyCoversOnlyOwn(FieldPath(q, m), prefix, name);
    assert FieldPath(q, m)[|q|] == '.';
  }

  /** Evidence for an object covers exactly the fields of that object. */
  lemma ObjectCoversItsFields(a: Kind, i: nat, b: Kind, j: nat, name: string)
    requires a.Listed() && Plain(name)
    ensures Covers(Prefix(a, i), FieldPath(Prefix(b, j), name)) <==> a == b && i == j
  {
    PrefixIsPlain(a, i);
    PrefixIsPlain(b, j);
    StrictlyCoversOnlyOwn(Prefix(a, i), Prefix(b, j), name);
    assert FieldPath(Prefix(b, j), name)[|Prefix(b, j)|] == '.';
    if Prefix(a, i) == Prefix(b, j) { PrefixInjective(a, i, b, j); }
  }
}
