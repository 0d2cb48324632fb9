/** The textual idempotency keys: distinct keys of the protocol are distinct strings. */
module IdempotencyKeys {
  import opened Billing

  const PREFIX := "pp:report:"
  const SUFFIX := ":carryover"

  function CategoryText(c: Category): string {
    match c
    case Traces => "traces"
    case TraceEvals => "trace_evals"
    case SessionEvals => "session_evals"
  }

  function Suffixes(n: nat): string {
    if n == 0 then "" else Suffixes(n - 1) + SUFFIX
  }

  /** The key text; `id` is the report's UUID in its fixed-width form. */
  function Text(id: string, c: Category, carryovers: nat): string {
    PREFIX + id + ":" + CategoryText(c) + Suffixes(carryovers)
  }

  lemma {:induction false} SuffixesLength(n: nat)
    ensures |Suffixes(n)| == n * |SUFFIX|
  {
    if n > 0 {
      SuffixesLength(n - 1);
    }
  }

  lemma CategoryShows(c: Category, d: Category, m: nat, n: nat)
    requires CategoryText(c) + Suffixes(m) == CategoryText(d) + Suffixes(n)
    ensures c == d
  {
    CharactersShow(CategoryText(c), Suffixes(m), CategoryText(d), Suffixes(n));
  }

  /** The first and the sixth character tell the categories apart. */
  lemma CharactersShow(a: string, x: string, b: string, y: string)
    requires |a| > 5 && |b| > 5 && a + x == b + y
    ensures a[0] == b[0] && a[5] == b[5]
  {
    assert a[0] == (a + x)[0] && b[0] == (b + y)[0];
    assert a[5] == (a + x)[5] && b[5] == (b + y)[5];
  }

  lemma Parts(id: string, rest: string)
    ensures var s := PREFIX + id + ":" + rest;
      s[|PREFIX|..|PREFIX| + |id|] == id && s[|PREFIX| + |id| + 1..] == rest
  {
  }

  lemma TailFollows(id: string, c: Category, n: nat)
    ensures Text(id, c, n) == PREFIX + id + ":" + (CategoryText(c) + Suffixes(n))
  {
  }

  lemma SuffixesCount(m: nat, n: nat)
    requires Suffixes(m) == Suffixes(n)
    ensures m == n
  {
    SuffixesLength(m);
    SuffixesLength(n);
  }

  /** Equal key texts mean the same report, category and number of carryovers. */
  lemma TextIsInjective(id1: string, c1: Category, n1: nat, id2: string, c2: Category, n2: nat)
    requires |id1| == |id2| && Text(id1, c1, n1) == Text(id2, c2, n2)
    ensures id1 == id2 && c1 == c2 && n1 == n2
  {
    var tail1, tail2 := CategoryText(c1) + Suffixes(n1), CategoryText(c2) + Suffixes(n2);
    TailFollows(id1, c1, n1);
    TailFollows(id2, c2, n2);
    Parts(id1, tail1);
    Parts(id2, tail2);
    CategoryShows(c1, c2, n1, n2);
    assert tail1[|CategoryText(c1)|..] == Suffixes(n1) && tail2[|CategoryText(c2)|..] == Suffixes(n2);
    SuffixesCount(n1, n2);
  }
}
