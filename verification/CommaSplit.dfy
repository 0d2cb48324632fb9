/** Splitting a signature's parameter list at its top-level commas. */
module CommaSplit {
  import opened Wrappers
  import opened Text

  /** Scanner state: bracket depth (which may go negative), the open quote, the last character. */
  datatype Scan = Scan(depth: int, quote: Option<char>, before: Option<char>)

  /** Finished slices and the one being collected. */
  datatype Cutter = Cutter(scan: Scan, finished: seq<string>, current: string)

  const START := Scan(0, None, None)

  predicate Opens(ch: char) {
    ch == '(' || ch == '[' || ch == '{' || ch == '<'
  }

  predicate Closes(ch: char) {
    ch == ')' || ch == ']' || ch == '}' || ch == '>'
  }

  /** Outside all brackets and quotes. */
  predicate TopLevel(st: Scan) {
    st.depth == 0 && st.quote.None?
  }

  function Next(st: Scan, ch: char): Scan {
    if st.quote.Some? then
      Scan(st.depth, if ch == st.quote.value && st.before != Some('\\') then None else st.quote, Some(ch))
    else if ch == '"' || ch == '\'' then Scan(st.depth, Some(ch), Some(ch))
    else if Opens(ch) then Scan(st.depth + 1, None, Some(ch))
    else if Closes(ch) then Scan(st.depth - 1, None, Some(ch))
    else Scan(st.depth, None, Some(ch))
  }

  predicate Cuts(st: Scan, ch: char) {
    ch == ',' && TopLevel(st)
  }

  function Feed(k: Cutter, ch: char): Cutter {
    if Cuts(k.scan, ch) then Cutter(Next(k.scan, ch), k.finished + [k.current], "")
    else Cutter(Next(k.scan, ch), k.finished, k.current + [ch])
  }

  function FeedAll(k: Cutter, s: string): Cutter
    decreases |s|
  {
    if s == [] then k else FeedAll(Feed(k, s[0]), s[1..])
  }

  function ScanAll(st: Scan, s: string): Scan
    decreases |s|
  {
    if s == [] then st else ScanAll(Next(st, s[0]), s[1..])
  }

  /** The raw slices of a text. */
  function Split(s: string): seq<string> {
    var k := FeedAll(Cutter(START, [], ""), s);
    k.finished + [k.current]
  }

  function Join(parts: seq<string>): string {
    if parts == [] then ""
    else if |parts| == 1 then parts[0]
    else Join(parts[..|parts| - 1]) + "," + parts[|parts| - 1]
  }

  // ------------------------------------------------------------------ feeding in pieces

  lemma {:induction false} FeedPieces(k: Cutter, a: string, b: string)
    ensures FeedAll(k, a + b) == FeedAll(FeedAll(k, a), b)
    decreases |a|
  {
    if a == [] {
      assert a + b == b;
    } else {
      assert (a + b)[0] == a[0] && (a + b)[1..] == a[1..] + b;
      FeedPieces(Feed(k, a[0]), a[1..], b);
    }
  }

  lemma FeedOne(k: Cutter, ch: char)
    ensures FeedAll(k, [ch]) == Feed(k, ch)
  {
    assert [ch][1..] == [];
    assert FeedAll(Feed(k, ch), []) == Feed(k, ch);
  }

  // ------------------------------------------------------------------ joining back

  lemma JoinAppend(parts: seq<string>, part: string)
    requires parts != []
    ensures Join(parts + [part]) == Join(parts) + "," + part
  {
    assert (parts + [part])[..|parts|] == parts;
  }

  lemma JoinExtendLast(finished: seq<string>, current: string, ch: char)
    ensures Join(finished + [current + [ch]]) == Join(finished + [current]) + [ch]
  {
    if finished == [] {
      assert finished + [current] == [current] && finished + [current + [ch]] == [current + [ch]];
    } else {
      JoinAppend(finished, current);
      JoinAppend(finished, current + [ch]);
      Reassociate(Join(finished), current, ch);
    }
  }

  lemma Reassociate(a: string, b: string, ch: char)
    ensures a + "," + (b + [ch]) == (a + "," + b) + [ch]
  {
  }

  lemma JoinOpens(finished: seq<string>, current: string)
    ensures Join((finished + [current]) + [""]) == Join(finished + [current]) + ","
  {
    JoinAppend(finished + [current], "");
    assert Join(finished + [current]) + "," + "" == Join(finished + [current]) + ",";
  }

  lemma FeedJoinsOne(k: Cutter, ch: char)
    ensures var r := Feed(k, ch); Join(r.finished + [r.current]) == Join(k.finished + [k.current]) + [ch]
  {
    if Cuts(k.scan, ch) {
      JoinOpens(k.finished, k.current);
    } else {
      JoinExtendLast(k.finished, k.current, ch);
    }
  }

  lemma {:induction false} FeedJoins(k: Cutter, s: string)
    ensures var r := FeedAll(k, s); Join(r.finished + [r.current]) == Join(k.finished + [k.current]) + s
    decreases |s|
  {
    hide Join, Feed;
    if s == [] {
      assert Join(k.finished + [k.current]) + [] == Join(k.finished + [k.current]);
    } else {
      FeedJoinsOne(k, s[0]);
      FeedJoins(Feed(k, s[0]), s[1..]);
      assert s == [s[0]] + s[1..];
      assert (Join(k.finished + [k.current]) + [s[0]]) + s[1..] == Join(k.finished + [k.current]) + s;
    }
  }

  /** Re-joining the slices of any text reproduces it. */
  lemma JoinOfSplit(s: string)
    ensures Join(Split(s)) == s
  {
    FeedJoins(Cutter(START, [], ""), s);
    assert [] + [""] == [""] && "" + s == s;
  }

  // ------------------------------------------------------------------ splitting a join

  /** No comma of `s` is at the top level when scanning starts in `st`. */
  predicate NoCut(st: Scan, s: string)
    decreases |s|
  {
    s == [] || (!Cuts(st, s[0]) && NoCut(Next(st, s[0]), s[1..]))
  }

  /** A part the splitter keeps whole: balanced, and without a top-level comma. */
  predicate Whole(part: string) {
    TopLevel(ScanAll(START, part)) && NoCut(START, part)
  }

  lemma {:induction false} FeedUncut(k: Cutter, s: string)
    requires NoCut(k.scan, s)
    ensures FeedAll(k, s) == Cutter(ScanAll(k.scan, s), k.finished, k.current + s)
    decreases |s|
  {
    if s == [] {
      assert k.current + s == k.current;
    } else {
      FeedUncut(Feed(k, s[0]), s[1..]);
      assert (k.current + [s[0]]) + s[1..] == k.current + s;
    }
  }

  /** At the top level it does not matter which character came before. */
  lemma TopLevelForgets(a: Scan, b: Scan, s: string)
    requires TopLevel(a) && TopLevel(b)
    ensures NoCut(a, s) == NoCut(b, s)
    ensures TopLevel(ScanAll(a, s)) == TopLevel(ScanAll(b, s))
  {
    if s != [] {
      assert Next(a, s[0]) == Next(b, s[0]);
    }
  }

  lemma WholeAddsOneSlice(k: Cutter, part: string)
    requires TopLevel(k.scan) && Whole(part)
    ensures var r := FeedAll(FeedAll(k, ","), part);
      r.finished == k.finished + [k.current] && r.current == part && TopLevel(r.scan)
  {
    FeedOne(k, ',');
    var reopened := Feed(k, ',');
    TopLevelForgets(START, reopened.scan, part);
    FeedUncut(reopened, part);
    assert "" + part == part;
  }

  lemma {:induction false} FeedJoin(parts: seq<string>)
    requires parts != [] && forall p :: p in parts ==> Whole(p)
    ensures var r := FeedAll(Cutter(START, [], ""), Join(parts)); r.finished + [r.current] == parts && TopLevel(r.scan)
  {
    var n, k := |parts| - 1, Cutter(START, [], "");
    assert Whole(parts[n]);
    if n == 0 {
      FeedUncut(k, parts[0]);
      assert "" + parts[0] == parts[0];
    } else {
      var front := parts[..n];
      FeedJoin(front);
      FeedPieces(k, Join(front) + ",", parts[n]);
      FeedPieces(k, Join(front), ",");
      WholeAddsOneSlice(FeedAll(k, Join(front)), parts[n]);
      assert parts == front + [parts[n]];
    }
  }

  /** Splitting the comma-join of whole parts returns exactly those parts. */
  lemma SplitOfJoin(parts: seq<string>)
    requires parts != [] && forall p :: p in parts ==> Whole(p)
    ensures Split(Join(parts)) == parts
  {
    FeedJoin(parts);
  }

  // ------------------------------------------------------------------ the slices of any text

  /** A slice scans without a top-level comma from where it starts. */
  ghost predicate SlicesUncut(st: Scan, parts: seq<string>)
    decreases |parts|
  {
    parts == [] ||
    (NoCut(st, parts[0]) &&
     (|parts| > 1 ==> TopLevel(ScanAll(st, parts[0])) && SlicesUncut(Next(ScanAll(st, parts[0]), ','), parts[1..])))
  }

  lemma FirstSlice(st: Scan, slice: string, rest: seq<string>)
    requires rest != [] && NoCut(st, slice) && TopLevel(ScanAll(st, slice))
    requires SlicesUncut(Next(ScanAll(st, slice), ','), rest)
    ensures SlicesUncut(st, [slice] + rest)
  {
    assert ([slice] + rest)[1..] == rest;
  }

  lemma DropPrefix(front: seq<string>, slice: string, all: seq<string>, last: string)
    requires front + [slice] <= all
    ensures front <= all && all[|front|..] + [last] == [slice] + (all[|front| + 1..] + [last])
  {
    assert all[|front|] == (front + [slice])[|front|];
  }

  lemma {:induction false} FeedSlices(k: Cutter, st: Scan, s: string)
    requires NoCut(st, k.current) && ScanAll(st, k.current) == k.scan
    ensures var r := FeedAll(k, s); k.finished <= r.finished && SlicesUncut(st, r.finished[|k.finished|..] + [r.current])
    decreases |s|
  {
    if s == [] {
      assert k.finished[|k.finished|..] + [k.current] == [k.current];
    } else if Cuts(k.scan, s[0]) {
      FeedSlices(Feed(k, s[0]), Next(k.scan, ','), s[1..]);
      var r := FeedAll(Feed(k, s[0]), s[1..]);
      DropPrefix(k.finished, k.current, r.finished, r.current);
      FirstSlice(st, k.current, r.finished[|k.finished| + 1..] + [r.current]);
    } else {
      ExtendUncut(st, k.current, s[0]);
      FeedSlices(Feed(k, s[0]), st, s[1..]);
    }
  }

  lemma {:induction false} ExtendUncut(st: Scan, s: string, ch: char)
    requires NoCut(st, s) && !Cuts(ScanAll(st, s), ch)
    ensures NoCut(st, s + [ch]) && ScanAll(st, s + [ch]) == Next(ScanAll(st, s), ch)
    decreases |s|
  {
    if s == [] {
      assert s + [ch] == [ch] && [ch][1..] == [];
    } else {
      assert (s + [ch])[0] == s[0] && (s + [ch])[1..] == s[1..] + [ch];
      ExtendUncut(Next(st, s[0]), s[1..], ch);
    }
  }

  /** Of any text, exactly the top-level commas separate the slices and none is inside one. */
  lemma SplitIsMaximal(s: string)
    ensures Join(Split(s)) == s && SlicesUncut(START, Split(s))
  {
    JoinOfSplit(s);
    FeedSlices(Cutter(START, [], ""), START, s);
    var r := FeedAll(Cutter(START, [], ""), s);
    assert r.finished[0..] == r.finished;
  }

  // ------------------------------------------------------------------ a grammar of nested text

  /** Text whose quotes and brackets nest: plain characters, quotations and bracketed text. */
  datatype Nested =
    | End
    | Plain(ch: char, rest: Nested)
    | Quoted(mark: char, body: string, rest: Nested)
    | Bracketed(left: char, inner: Nested, right: char, rest: Nested)

  function Render(t: Nested): string {
    match t
    case End => ""
    case Plain(ch, rest) => [ch] + Render(rest)
    case Quoted(mark, body, rest) => [mark] + body + [mark] + Render(rest)
    case Bracketed(left, inner, right, rest) => [left] + Render(inner) + [right] + Render(rest)
  }

  /** Inside a quotation the mark is escaped, and nothing escapes the closing one. */
  ghost predicate QuotationBody(mark: char, body: string) {
    && (forall i :: 0 <= i < |body| && body[i] == mark ==> i > 0 && body[i - 1] == '\\')
    && (body != [] ==> body[|body| - 1] != '\\')
  }

  ghost predicate WellFormed(t: Nested) {
    match t
    case End => true
    case Plain(ch, rest) => ch !in "\"'([{<>}])" && WellFormed(rest)
    case Quoted(mark, body, rest) => mark in "\"'" && QuotationBody(mark, body) && WellFormed(rest)
    case Bracketed(left, inner, right, rest) =>
      [left, right] in ["()", "[]", "{}", "<>"] && WellFormed(inner) && WellFormed(rest)
  }

  /** No comma outside all quotations and brackets; inside them there may be any number. */
  predicate NoOuterComma(t: Nested) {
    match t
    case End => true
    case Plain(ch, rest) => ch != ',' && NoOuterComma(rest)
    case Quoted(_, _, rest) => NoOuterComma(rest)
    case Bracketed(_, _, _, rest) => NoOuterComma(rest)
  }

  lemma {:induction false} ScanPieces(st: Scan, a: string, b: string)
    ensures ScanAll(st, a + b) == ScanAll(ScanAll(st, a), b)
    ensures NoCut(st, a + b) <==> NoCut(st, a) && NoCut(ScanAll(st, a), b)
    decreases |a|
  {
    if a == [] {
      assert a + b == b;
    } else {
      assert (a + b)[0] == a[0] && (a + b)[1..] == a[1..] + b;
      ScanPieces(Next(st, a[0]), a[1..], b);
    }
  }

  lemma ScanOne(st: Scan, ch: char)
    ensures ScanAll(st, [ch]) == Next(st, ch) && (NoCut(st, [ch]) <==> !Cuts(st, ch))
  {
    assert [ch][1..] == [];
    assert ScanAll(Next(st, ch), []) == Next(st, ch) && NoCut(Next(st, ch), []);
  }

  predicate EscapedAt(before: Option<char>, s: string, i: nat)
    requires i < |s|
  {
    if i == 0 then before == Some('\\') else s[i - 1] == '\\'
  }

  lemma {:induction false} ScanQuotation(st: Scan, mark: char, s: string)
    requires st.quote == Some(mark)
    requires forall i: nat :: i < |s| && s[i] == mark ==> EscapedAt(st.before, s, i)
    ensures NoCut(st, s)
    ensures ScanAll(st, s) == Scan(st.depth, Some(mark), if s == [] then st.before else Some(s[|s| - 1]))
    decreases |s|
  {
    if s != [] {
      assert s[0] == mark ==> EscapedAt(st.before, s, 0);
      forall i: nat | i < |s| - 1 && s[1..][i] == mark ensures EscapedAt(Some(s[0]), s[1..], i) {
        assert EscapedAt(st.before, s, i + 1);
      }
      ScanQuotation(Next(st, s[0]), mark, s[1..]);
    }
  }

  lemma ScanQuoted(st: Scan, mark: char, body: string)
    requires st.quote.None? && mark in "\"'" && QuotationBody(mark, body)
    ensures NoCut(st, [mark] + body + [mark])
    ensures ScanAll(st, [mark] + body + [mark]) == Scan(st.depth, None, Some(mark))
  {
    var inside := Scan(st.depth, Some(mark), Some(mark));
    assert mark == '"' || mark == '\'';
    ScanOne(st, mark);
    ScanQuotation(inside, mark, body);
    ScanPieces(st, [mark], body);
    ScanPieces(st, [mark] + body, [mark]);
    ScanOne(ScanAll(inside, body), mark);
  }

  /** Nested text leaves the scanner where it was, and only an outer comma can cut it. */
  lemma {:induction false} ScanNested(st: Scan, t: Nested)
    requires st.quote.None? && st.depth >= 0 && WellFormed(t)
    ensures ScanAll(st, Render(t)).depth == st.depth && ScanAll(st, Render(t)).quote.None?
    ensures st.depth > 0 || NoOuterComma(t) ==> NoCut(st, Render(t))
    decreases t
  {
    match t
    case End =>
    case Plain(ch, rest) =>
      ScanOne(st, ch);
      ScanPieces(st, [ch], Render(rest));
      ScanNested(Next(st, ch), rest);
    case Quoted(mark, body, rest) =>
      ScanQuoted(st, mark, body);
      ScanPieces(st, [mark] + body + [mark], Render(rest));
      ScanNested(ScanAll(st, [mark] + body + [mark]), rest);
    case Bracketed(left, inner, right, rest) =>
      ScanBracketed(st, left, Render(inner), right) by { ScanNested(Next(st, left), inner); }
      var bracketed := [left] + Render(inner) + [right];
      ScanPieces(st, bracketed, Render(rest));
      ScanNested(ScanAll(st, bracketed), rest);
  }

  lemma ScanBracketed(st: Scan, left: char, inner: string, right: char)
    requires st.quote.None? && st.depth >= 0 && [left, right] in ["()", "[]", "{}", "<>"]
    requires var one := Next(st, left);
      one.depth > 0 ==> ScanAll(one, inner).depth == one.depth && ScanAll(one, inner).quote.None? && NoCut(one, inner)
    ensures NoCut(st, [left] + inner + [right])
    ensures ScanAll(st, [left] + inner + [right]).depth == st.depth && ScanAll(st, [left] + inner + [right]).quote.None?
  {
    PairOf(left, right);
    ScanOne(st, left);
    ScanPieces(st, [left], inner);
    ScanPieces(st, [left] + inner, [right]);
    ScanOne(ScanAll(Next(st, left), inner), right);
  }

  lemma PairOf(left: char, right: char)
    requires [left, right] in ["()", "[]", "{}", "<>"]
    ensures Opens(left) && Closes(right) && left !in "\"'," && right !in "\"',"
  {
    var pairs := ["()", "[]", "{}", "<>"];
    var i :| 0 <= i < |pairs| && pairs[i] == [left, right];
    assert left == pairs[i][0] && right == pairs[i][1];
  }

  function Renders(ts: seq<Nested>): seq<string> {
    seq(|ts|, i requires 0 <= i < |ts| => Render(ts[i]))
  }

  /** Parameters with nested brackets and quotations come apart exactly at the commas between them. */
  lemma SplitOfNested(ts: seq<Nested>)
    requires ts != [] && forall i :: 0 <= i < |ts| ==> WellFormed(ts[i]) && NoOuterComma(ts[i])
    ensures Split(Join(Renders(ts))) == Renders(ts)
  {
    forall p | p in Renders(ts) ensures Whole(p) {
      var i :| 0 <= i < |ts| && Renders(ts)[i] == p;
      ScanNested(START, ts[i]);
    }
    SplitOfJoin(Renders(ts));
  }

  // ------------------------------------------------------------------ the loop

  function StripLeft(s: string): string {
    if s != [] && IsSpace(s[0]) then StripLeft(s[1..]) else s
  }

  function StripRight(s: string): string {
    if s != [] && IsSpace(s[|s| - 1]) then StripRight(s[..|s| - 1]) else s
  }

  function Strip(s: string): string {
    StripRight(StripLeft(s))
  }

  lemma {:induction false} StripRightMeaning(s: string)
    ensures StripRight(s) <= s && IsBlank(s[|StripRight(s)|..])
    ensures StripRight(s) != [] ==> !IsSpace(StripRight(s)[|StripRight(s)| - 1])
  {
    if s != [] && IsSpace(s[|s| - 1]) {
      var n := |s| - 1;
      StripRightMeaning(s[..n]);
      var k := |StripRight(s)|;
      assert s[k..] == s[..n][k..] + [s[n]];
    }
  }

  lemma {:induction false} StripLeftMeaning(s: string)
    ensures |StripLeft(s)| <= |s| && StripLeft(s) == s[|s| - |StripLeft(s)|..] && IsBlank(s[..|s| - |StripLeft(s)|])
    ensures StripLeft(s) != [] ==> !IsSpace(StripLeft(s)[0])
  {
    if s != [] && IsSpace(s[0]) {
      StripLeftMeaning(s[1..]);
      var k := |s| - |StripLeft(s)|;
      assert s[..k] == [s[0]] + s[1..][..k - 1] && s[k..] == s[1..][k - 1..];
    }
  }

  /** Stripping removes exactly the white space at both ends. */
  lemma StripMeaning(s: string) returns (before: string, after: string)
    ensures s == before + Strip(s) + after && IsBlank(before) && IsBlank(after)
    ensures Strip(s) != [] ==> !IsSpace(Strip(s)[0]) && !IsSpace(Strip(s)[|Strip(s)| - 1])
  {
    var left := StripLeft(s);
    StripLeftMeaning(s);
    StripRightMeaning(left);
    before, after := s[..|s| - |left|], left[|Strip(s)|..];
    assert left == Strip(s) + after && s == before + left;
  }

  /** Each part is its raw slice without surrounding white space. */
  ghost predicate AreStripped(parts: seq<string>, raw: seq<string>) {
    |parts| == |raw| && forall j :: 0 <= j < |raw| ==> parts[j] == Strip(raw[j])
  }

  method AppendStripped(parts: seq<string>, slice: string, ghost raw: seq<string>) returns (longer: seq<string>)
    requires AreStripped(parts, raw)
    ensures AreStripped(longer, raw + [slice])
  {
    longer := parts + [Strip(slice)];
  }

  /** The scanner before character `i`: the character before it is read off the text. */
  function Before(s: string, i: nat, depth: int, quote: Option<char>): Scan
    requires i <= |s|
  {
    Scan(depth, quote, if i == 0 then None else Some(s[i - 1]))
  }

  /** What the loop knows after `i` characters. */
  ghost predicate Scanned(s: string, i: nat, begin: nat, depth: int, quote: Option<char>, raw: seq<string>) {
    && begin <= i <= |s|
    && FeedAll(Cutter(START, [], ""), s[..i]) == Cutter(Before(s, i, depth, quote), raw, s[begin..i])
  }

  lemma ScanOn(s: string, i: nat, begin: nat, depth: int, quote: Option<char>, raw: seq<string>)
    requires i < |s| && Scanned(s, i, begin, depth, quote, raw)
    ensures FeedAll(Cutter(START, [], ""), s[..i + 1]) == Feed(Cutter(Before(s, i, depth, quote), raw, s[begin..i]), s[i])
  {
    assert s[..i + 1] == s[..i] + [s[i]];
    FeedPieces(Cutter(START, [], ""), s[..i], [s[i]]);
    FeedOne(Cutter(Before(s, i, depth, quote), raw, s[begin..i]), s[i]);
  }

  lemma CutOn(s: string, i: nat, begin: nat, depth: int, quote: Option<char>, raw: seq<string>)
    requires i < |s| && Scanned(s, i, begin, depth, quote, raw) && Cuts(Before(s, i, depth, quote), s[i])
    ensures Scanned(s, i + 1, i + 1, depth, quote, raw + [s[begin..i]])
  {
    ScanOn(s, i, begin, depth, quote, raw);
    assert s[i + 1..i + 1] == "";
  }

  lemma PassOn(s: string, i: nat, begin: nat, depth: int, quote: Option<char>, raw: seq<string>)
    requires i < |s| && Scanned(s, i, begin, depth, quote, raw) && !Cuts(Before(s, i, depth, quote), s[i])
    ensures var st := Next(Before(s, i, depth, quote), s[i]); Scanned(s, i + 1, begin, st.depth, st.quote, raw)
  {
    ScanOn(s, i, begin, depth, quote, raw);
    assert s[begin..i + 1] == s[begin..i] + [s[i]];
  }

  lemma ScannedNothing(s: string)
    ensures Scanned(s, 0, 0, 0, None, [])
  {
    assert s[..0] == "" && s[0..0] == "";
  }

  lemma ScannedAll(s: string, begin: nat, depth: int, quote: Option<char>, raw: seq<string>)
    requires Scanned(s, |s|, begin, depth, quote, raw)
    ensures Split(s) == raw + [s[begin..]]
  {
    assert s[..|s|] == s && s[begin..|s|] == s[begin..];
  }

  /** One turn of the loop body: the branch taken, and whether the text is cut here. */
  method Advance(st: Scan, ch: char) returns (depth: int, quote: Option<char>, cut: bool)
    ensures cut == Cuts(st, ch)
    ensures depth == Next(st, ch).depth && quote == Next(st, ch).quote
  {
    depth, quote, cut := st.depth, st.quote, false;
    if quote.Some? {
      if ch == quote.value && st.before != Some('\\') {
        quote := None;
      }
    } else if ch == '"' || ch == '\'' {
      quote := Some(ch);
    } else if Opens(ch) {
      depth := depth + 1;
    } else if Closes(ch) {
      depth := depth - 1;
    } else if ch == ',' && depth == 0 {
      cut := true;
    }
  }

  /** The scanning loop of the signature block: one pass, slicing at each top-level comma. */
  method SplitParameters(inner: string) returns (parts: seq<string>)
    ensures AreStripped(parts, Split(inner))
  {
    parts := [];
    var begin, depth := 0, 0;
    var quote: Option<char> := None;
    ghost var raw: seq<string> := [];
    ScannedNothing(inner);
    for i := 0 to |inner|
      invariant Scanned(inner, i, begin, depth, quote, raw)
      invariant AreStripped(parts, raw)
    {
      var depthNow, quoteNow, cut := Advance(Before(inner, i, depth, quote), inner[i]);
      if cut {
        CutOn(inner, i, begin, depth, quote, raw);
        parts := AppendStripped(parts, inner[begin..i], raw);
        raw := raw + [inner[begin..i]];
        begin := i + 1;
      } else {
        PassOn(inner, i, begin, depth, quote, raw);
      }
      depth, quote := depthNow, quoteNow;
    }
    ScannedAll(inner, begin, depth, quote, raw);
    parts := AppendStripped(parts, inner[begin..], raw);
  }
}
