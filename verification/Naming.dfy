// The names the parser generates.
module Naming {
  import opened Decimal

  // Ingress i of the list, rule j, match k, match rule g.
  datatype Index = Index(i: nat, j: nat, k: nat, g: nat)

  function Digits(x: Index): (s: string)
    ensures forall c | c in s :: IsDigit(c)
  {
    Format(x.i) + Format(x.j) + Format(x.k) + Format(x.g)
  }

  // "%s.%s.%d%d%d%d"
  function APIName(namespace: string, ingress: string, x: Index): string {
    namespace + "." + ingress + "." + Digits(x)
  }

  // "%s.%s.%s.%s.svc"
  function ServiceName(namespace: string, cluster: string, subset: string, port: string): string {
    namespace + "." + cluster + "." + subset + "." + port + ".svc"
  }

  lemma NameInstances()
    ensures APIName("default", "web", Index(0, 1, 2, 3)) == "default.web.0123"
    ensures ServiceName("default", "shop", "v1", "80") == "default.shop.v1.80.svc"
  {
    assert Digits(Index(0, 1, 2, 3)) == "0123";
  }

  lemma NoDotInDigits(x: Index)
    ensures '.' !in Digits(x)
  {
  }

  lemma SplitAtLast(a: string, b: string, c: string, d: string, sep: char)
    requires sep !in b && sep !in d
    requires a + [sep] + b == c + [sep] + d
    ensures a == c && b == d
  {
    var left, right := a + [sep] + b, c + [sep] + d;
    assert left[|a|] == sep && right[|c|] == sep;
    assert |a| == |c|;
    assert a == left[..|a|] == right[..|c|] == c;
    assert b == left[|a| + 1..] == right[|c| + 1..] == d;
  }

  // Namespaces have no dots, though ingress names may: the name determines
  // namespace, ingress and the run of digits, and nothing more.
  lemma NamesEqualIff(ns: string, ing: string, x: Index, ns': string, ing': string, y: Index)
    requires '.' !in ns && '.' !in ns'
    ensures APIName(ns, ing, x) == APIName(ns', ing', y) <==> ns == ns' && ing == ing' && Digits(x) == Digits(y)
  {
    if APIName(ns, ing, x) == APIName(ns', ing', y) {
      assert APIName(ns, ing, x) == ns + ['.'] + (ing + "." + Digits(x));
      assert APIName(ns', ing', y) == ns' + ['.'] + (ing' + "." + Digits(y));
      SplitAtFirst(ns, ing + "." + Digits(x), ns', ing' + "." + Digits(y), '.');
      NoDotInDigits(x);
      NoDotInDigits(y);
      SplitAtLast(ing, Digits(x), ing', Digits(y), '.');
    }
  }

  // How many of the four indices may need more than one digit in x or in y.
  function Wide(x: Index, y: Index): nat {
    (if x.i < 10 && y.i < 10 then 0 else 1) + (if x.j < 10 && y.j < 10 then 0 else 1)
    + (if x.k < 10 && y.k < 10 then 0 else 1) + (if x.g < 10 && y.g < 10 then 0 else 1)
  }

  // As long as only one index goes past nine, whichever it is, the digits
  // determine all four.
  lemma DigitsDetermine(x: Index, y: Index)
    requires Wide(x, y) <= 1 && Digits(x) == Digits(y)
    ensures x == y
  {
    var a, b, c, d := Format(x.i), Format(x.j), Format(x.k), Format(x.g);
    var a', b', c', d' := Format(y.i), Format(y.j), Format(y.k), Format(y.g);
    assert a + b + c + d == a' + b' + c' + d';
    SameLengths(x, y);
    Segments(a, b, c, d, a', b', c', d');
    FormatInjective(x.i, y.i);
    FormatInjective(x.j, y.j);
    FormatInjective(x.k, y.k);
    FormatInjective(x.g, y.g);
  }

  lemma SameLengths(x: Index, y: Index)
    requires Wide(x, y) <= 1 && Digits(x) == Digits(y)
    ensures |Format(x.i)| == |Format(y.i)| && |Format(x.j)| == |Format(y.j)|
    ensures |Format(x.k)| == |Format(y.k)| && |Format(x.g)| == |Format(y.g)|
  {
  }

  lemma Segments(a: string, b: string, c: string, d: string, a': string, b': string, c': string, d': string)
    requires a + b + c + d == a' + b' + c' + d'
    requires |a| == |a'| && |b| == |b'| && |c| == |c'|
    ensures a == a' && b == b' && c == c' && d == d'
  {
    var s, t := a + b + c + d, a' + b' + c' + d';
    assert a == s[..|a|] && a' == t[..|a|];
    assert b == s[|a|..|a| + |b|] && b' == t[|a|..|a| + |b|];
    assert c == s[|a| + |b|..|a| + |b| + |c|] && c' == t[|a| + |b|..|a| + |b| + |c|];
    assert d == s[|a| + |b| + |c|..] && d' == t[|a| + |b| + |c|..];
  }

  // With two wide indices they no longer do: match rule 10 of match 1 and
  // match rule 0 of match 11 share a name.
  lemma WideIndicesCollide(ns: string, ing: string, i: nat)
    ensures APIName(ns, ing, Index(i, 1, 1, 10)) == APIName(ns, ing, Index(i, 1, 11, 0))
    ensures Wide(Index(0, 1, 1, 10), Index(0, 1, 11, 0)) == 2
  {
  }

  // So within that bound a name determines namespace, ingress and indices, and
  // no two APIs are taken for one.
  lemma NamesDistinctWhenNarrow(ns: string, ing: string, x: Index, ns': string, ing': string, y: Index)
    requires '.' !in ns && '.' !in ns' && Wide(x, y) <= 1
    ensures APIName(ns, ing, x) == APIName(ns', ing', y) <==> ns == ns' && ing == ing' && x == y
  {
    NamesEqualIff(ns, ing, x, ns', ing', y);
    if Digits(x) == Digits(y) {
      DigitsDetermine(x, y);
    }
  }

  // ---- Service names -------------------------------------------------------------------

  // Namespaces and ports have no dots, though names of clusters and subsets may:
  // the name of a service determines namespace and port, and of cluster and
  // subset only their dotted joint.
  lemma ServiceNamesEqualIff(ns: string, cluster: string, subset: string, port: string,
                             ns': string, cluster': string, subset': string, port': string)
    requires '.' !in ns && '.' !in ns' && '.' !in port && '.' !in port'
    ensures ServiceName(ns, cluster, subset, port) == ServiceName(ns', cluster', subset', port') <==>
              ns == ns' && port == port' && cluster + "." + subset == cluster' + "." + subset'
  {
    var mid, mid' := cluster + "." + subset, cluster' + "." + subset';
    ServiceNameParts(ns, cluster, subset, port);
    ServiceNameParts(ns', cluster', subset', port');
    if ServiceName(ns, cluster, subset, port) == ServiceName(ns', cluster', subset', port') {
      SplitAtFirst(ns, mid + "." + port + ".svc", ns', mid' + "." + port' + ".svc", '.');
      assert mid + "." + port + ".svc" == (mid + "." + port) + ['.'] + "svc";
      assert mid' + "." + port' + ".svc" == (mid' + "." + port') + ['.'] + "svc";
      SplitAtLast(mid + "." + port, "svc", mid' + "." + port', "svc", '.');
      SplitAtLast(mid, port, mid', port', '.');
    }
  }

  lemma ServiceNameParts(ns: string, cluster: string, subset: string, port: string)
    ensures ServiceName(ns, cluster, subset, port) == ns + ['.'] + (cluster + "." + subset + "." + port + ".svc")
  {
  }

  // With dots in neither subset it determines all four; with dots it need not,
  // and a route can end up at the service of another cluster.
  lemma ServiceNamesDistinct(ns: string, cluster: string, subset: string, port: string,
                             ns': string, cluster': string, subset': string, port': string)
    requires '.' !in ns && '.' !in ns' && '.' !in port && '.' !in port' && '.' !in subset && '.' !in subset'
    ensures ServiceName(ns, cluster, subset, port) == ServiceName(ns', cluster', subset', port') <==>
              ns == ns' && cluster == cluster' && subset == subset' && port == port'
  {
    ServiceNamesEqualIff(ns, cluster, subset, port, ns', cluster', subset', port');
    if cluster + "." + subset == cluster' + "." + subset' {
      SplitAtLast(cluster, subset, cluster', subset', '.');
    }
  }

  lemma DottedSubsetsCollide(ns: string, a: string, b: string, c: string, port: string)
    ensures ServiceName(ns, a + "." + b, c, port) == ServiceName(ns, a, b + "." + c, port)
  {
    assert ServiceName(ns, a + "." + b, c, port) == ns + "." + a + "." + b + "." + c + "." + port + ".svc";
    assert ServiceName(ns, a, b + "." + c, port) == ns + "." + a + "." + b + "." + c + "." + port + ".svc";
  }
}
