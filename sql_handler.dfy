/** `SQLHandler.generate_sql_file`: the SQL script written for the collected company records. */
module SqlHandler {
  import opened Common
  import opened Records

  datatype Table = Companies | CompanyFacets | CompanyLocations | CompanySocialMedia

  /** A value inside a VALUES list: `Literal(t)` is written as a quote, the characters t, and a
      quote; `Bare(t)` is written as t alone. */
  datatype SqlValue = Literal(text: string) | Bare(token: string)

  /** One statement of the script; the exact whitespace of the templates is not modelled. */
  datatype Statement =
    | CreateTable(table: Table)
    | DeleteAll(table: Table)
    | Insert(table: Table, values: seq<SqlValue>)

  /** The statements written so far, and whether writing ran to the end without raising. */
  datatype Emitted = Emitted(statements: seq<Statement>, completed: bool)

  // ---------------------------------------------------------------- the preamble

  /** No company row is deleted before the rows that reference it. */
  ghost predicate ChildrenClearedFirst(ss: seq<Statement>)
  {
    forall i, j ::
      (0 <= i < |ss| && 0 <= j < |ss| && ss[i] == DeleteAll(Companies) && ss[j].DeleteAll?
       && ss[j].table != Companies) ==> j < i
  }

  /** The four CREATE TABLE statements, then the four DELETEs, child tables first. */
  function Preamble(): seq<Statement>
  {
    [CreateTable(Companies), CreateTable(CompanyFacets), CreateTable(CompanyLocations),
     CreateTable(CompanySocialMedia),
     DeleteAll(CompanyFacets), DeleteAll(CompanyLocations), DeleteAll(CompanySocialMedia),
     DeleteAll(Companies)]
  }

  /** The preamble holds four CREATEs and then four DELETEs, no INSERT, and clears the child
      tables before companies. */
  lemma PreambleOrder()
    ensures |Preamble()| == 8
    ensures forall k :: 0 <= k < 4 ==> Preamble()[k].CreateTable?
    ensures forall k :: 4 <= k < 8 ==> Preamble()[k].DeleteAll?
    ensures ChildrenClearedFirst(Preamble())
  {
  }

  /** Every table is created once, first, and cleared once, after all four are created. */
  lemma PreambleCoversEveryTable(t: Table)
    ensures |Preamble()| == 8
    ensures |set k | 0 <= k < 4 && Preamble()[k] == CreateTable(t)| == 1
    ensures |set k | 4 <= k < 8 && Preamble()[k] == DeleteAll(t)| == 1
  {
    var p := Preamble();
    match t {
      case Companies =>
        assert (set k | 0 <= k < 4 && p[k] == CreateTable(t)) == {0};
        assert (set k | 4 <= k < 8 && p[k] == DeleteAll(t)) == {7};
      case CompanyFacets =>
        assert (set k | 0 <= k < 4 && p[k] == CreateTable(t)) == {1};
        assert (set k | 4 <= k < 8 && p[k] == DeleteAll(t)) == {4};
      case CompanyLocations =>
        assert (set k | 0 <= k < 4 && p[k] == CreateTable(t)) == {2};
        assert (set k | 4 <= k < 8 && p[k] == DeleteAll(t)) == {5};
      case CompanySocialMedia =>
        assert (set k | 0 <= k < 4 && p[k] == CreateTable(t)) == {3};
        assert (set k | 4 <= k < 8 && p[k] == DeleteAll(t)) == {6};
    }
  }

  // ---------------------------------------------------------------- quoting

  /** `s.replace("'", "''")`. */
  function Escape(s: string): string
    decreases |s|
  {
    if s == [] then [] else (if s[0] == '\'' then "''" else [s[0]]) + Escape(s[1..])
  }

  /** Collapses every `''` back to one quote. */
  function Unescape(s: string): string
    decreases |s|
  {
    if s == [] then []
    else if |s| >= 2 && s[0] == '\'' && s[1] == '\'' then "'" + Unescape(s[2..])
    else [s[0]] + Unescape(s[1..])
  }

  /** Collapsing the doubled quotes gives back the original. */
  lemma {:induction false} UnescapeEscape(s: string)
    ensures Unescape(Escape(s)) == s
    decreases |s|
  {
    if s != [] {
      UnescapeEscape(s[1..]);
      if s[0] == '\'' {
        assert Escape(s) == "''" + Escape(s[1..]);
        assert Escape(s)[2..] == Escape(s[1..]);
      } else {
        assert Escape(s) == [s[0]] + Escape(s[1..]);
        assert Escape(s)[1..] == Escape(s[1..]);
      }
    }
  }

  /** A string without a quote is left as it is. */
  lemma {:induction false} EscapeQuoteFree(s: string)
    requires '\'' !in s
    ensures Escape(s) == s
    decreases |s|
  {
    if s != [] {
      assert s[0] != '\'';
      assert '\'' !in s[1..];
      EscapeQuoteFree(s[1..]);
      assert s == [s[0]] + s[1..];
    }
  }

  /** Escaping gives the empty string only for the empty string. */
  lemma EscapeEmpty(s: string)
    ensures Escape(s) == "" <==> s == ""
  {
    if s != [] {
      assert |Escape(s)| >= 1;
    }
  }

  /** Reads one SQL string literal off the front of t: a quote, characters in which `''` stands
      for one quote, and a lone closing quote. Gives the literal's value and the text after it. */
  function ParseLiteral(t: string): Option<(string, string)>
  {
    if t != [] && t[0] == '\'' then LiteralBody(t[1..]) else None
  }

  function LiteralBody(t: string): Option<(string, string)>
    decreases |t|
  {
    if t == [] then None
    else if t[0] == '\'' then
      if |t| >= 2 && t[1] == '\'' then Prepend('\'', LiteralBody(t[2..])) else Some(("", t[1..]))
    else Prepend(t[0], LiteralBody(t[1..]))
  }

  function Prepend(c: char, r: Option<(string, string)>): Option<(string, string)>
  {
    match r
    case None => None
    case Some((v, rest)) => Some(([c] + v, rest))
  }

  /** The text a value is written as. */
  function ValueText(v: SqlValue): string
  {
    match v
    case Literal(t) => "'" + t + "'"
    case Bare(t) => t
  }

  /** An escaped string written between quotes reads back as exactly one literal holding the
      original, whatever follows it (unless what follows starts with a quote). */
  lemma LiteralRoundTrip(s: string, rest: string)
    requires rest == [] || rest[0] != '\''
    ensures ParseLiteral(ValueText(Literal(Escape(s))) + rest) == Some((s, rest))
  {
    var body := Escape(s) + "'" + rest;
    var t := ValueText(Literal(Escape(s))) + rest;
    assert t == "'" + body;
    assert t[0] == '\'' && t[1..] == body;
    BodyRoundTrip(s, rest);
  }

  lemma {:induction false} BodyRoundTrip(s: string, rest: string)
    requires rest == [] || rest[0] != '\''
    ensures LiteralBody(Escape(s) + "'" + rest) == Some((s, rest))
    decreases |s|
  {
    if s == [] {
      assert Escape(s) + "'" + rest == "'" + rest;
      assert ("'" + rest)[1..] == rest;
    } else {
      BodyRoundTrip(s[1..], rest);
      var u := Escape(s[1..]) + "'" + rest;
      var head := if s[0] == '\'' then "''" else [s[0]];
      assert Escape(s) + "'" + rest == head + u;
      if s[0] == '\'' {
        assert (head + u)[2..] == u;
      } else {
        assert (head + u)[1..] == u;
      }
      assert s == [s[0]] + s[1..];
    }
  }

  /** A literal read off the front of t takes as many characters as its value escaped, plus the
      closing quote. */
  lemma {:induction false} LiteralBodyLength(t: string)
    ensures LiteralBody(t).Some? ==>
      |t| == |Escape(LiteralBody(t).value.0)| + 1 + |LiteralBody(t).value.1|
    decreases |t|
  {
    if t != [] {
      if t[0] == '\'' {
        if |t| >= 2 && t[1] == '\'' {
          LiteralBodyLength(t[2..]);
        }
      } else {
        LiteralBodyLength(t[1..]);
      }
    }
  }

  /** Escaping never shortens a string, and lengthens every string that holds a quote. */
  lemma {:induction false} EscapeLength(s: string)
    ensures |Escape(s)| >= |s|
    ensures '\'' in s ==> |Escape(s)| > |s|
    decreases |s|
  {
    if s != [] {
      EscapeLength(s[1..]);
      if s[0] != '\'' {
        assert '\'' in s ==> '\'' in s[1..];
      }
    }
  }

  /** A field embedded between quotes without escaping does not survive a quote in it: whatever
      follows, the text does not read back as that field followed by what follows
      (`'o'brien'` reads as the literal `o`). */
  lemma VerbatimQuoteBreaksLiteral(s: string, rest: string)
    requires '\'' in s
    ensures ParseLiteral(ValueText(Literal(s)) + rest) != Some((s, rest))
  {
    var t := ValueText(Literal(s)) + rest;
    assert t[0] == '\'' && t[1..] == s + "'" + rest;
    LiteralBodyLength(t[1..]);
    EscapeLength(s);
  }

  /** The number of quotes in a string. */
  function Quotes(s: string): nat
    decreases |s|
  {
    if s == [] then 0 else (if s[0] == '\'' then 1 else 0) + Quotes(s[1..])
  }

  lemma {:induction false} QuotesAppend(a: string, b: string)
    ensures Quotes(a + b) == Quotes(a) + Quotes(b)
    decreases |a|
  {
    if a == [] {
      assert a + b == b;
    } else {
      assert (a + b)[1..] == a[1..] + b;
      QuotesAppend(a[1..], b);
    }
  }

  /** A string has at most as many quotes as characters, and one made only of quotes starts with
      a quote. */
  lemma {:induction false} QuotesBound(x: string)
    ensures Quotes(x) <= |x|
    ensures x != [] && Quotes(x) == |x| ==> x[0] == '\''
    decreases |x|
  {
    if x != [] {
      QuotesBound(x[1..]);
    }
  }

  /** Escaping adds one character per quote, and doubles the number of quotes. */
  lemma {:induction false} EscapeQuotes(s: string)
    ensures |Escape(s)| == |s| + Quotes(s)
    ensures Quotes(Escape(s)) == 2 * Quotes(s)
    ensures '\'' in s ==> Quotes(s) >= 1
    decreases |s|
  {
    if s != [] {
      EscapeQuotes(s[1..]);
      var head := if s[0] == '\'' then "''" else [s[0]];
      assert Escape(s) == head + Escape(s[1..]);
      QuotesAppend(head, Escape(s[1..]));
      assert '\'' in s && s[0] != '\'' ==> '\'' in s[1..];
    }
  }

  /** Whatever a literal is read from is its value escaped, the closing quote, and a remainder
      that does not start with a quote. */
  lemma {:induction false} LiteralBodyShape(t: string)
    ensures LiteralBody(t).Some? ==>
      && t == Escape(LiteralBody(t).value.0) + "'" + LiteralBody(t).value.1
      && (LiteralBody(t).value.1 == [] || LiteralBody(t).value.1[0] != '\'')
    decreases |t|
  {
    if t != [] {
      if t[0] == '\'' {
        if |t| >= 2 && t[1] == '\'' {
          LiteralBodyShape(t[2..]);
          if LiteralBody(t[2..]).Some? {
            var v := LiteralBody(t[2..]).value.0;
            assert Escape("'" + v) == "''" + Escape(v) by {
              assert ("'" + v)[1..] == v;
            }
            assert t == "''" + t[2..];
          }
        } else {
          assert Escape("") == "";
          assert t == "'" + t[1..];
        }
      } else {
        LiteralBodyShape(t[1..]);
        if LiteralBody(t[1..]).Some? {
          var v := LiteralBody(t[1..]).value.0;
          assert Escape([t[0]] + v) == [t[0]] + Escape(v) by {
            assert ([t[0]] + v)[1..] == v;
          }
          assert t == [t[0]] + t[1..];
        }
      }
    }
  }

  /** When, as in every INSERT of the file, the literal is followed by something other than a
      quote, a field holding a quote and written without escaping never reads back as itself. */
  lemma VerbatimQuoteMisread(s: string, rest: string)
    requires '\'' in s
    requires rest == [] || rest[0] != '\''
    ensures var p := ParseLiteral(ValueText(Literal(s)) + rest); p.None? || p.value.0 != s
  {
    var t := ValueText(Literal(s)) + rest;
    assert t[0] == '\'' && t[1..] == s + "'" + rest;
    var p := LiteralBody(t[1..]);
    if p.Some? && p.value.0 == s {
      var r := p.value.1;
      LiteralBodyShape(t[1..]);
      EscapeQuotes(s);
      var q := Quotes(s);
      var n := |s|;
      assert s + "'" + rest == Escape(s) + "'" + r;
      var x := rest[..q];
      assert (s + "'" + rest)[..n + 1 + q] == s + "'" + x;
      assert (Escape(s) + "'" + r)[..n + 1 + q] == Escape(s) + "'";
      QuotesAppend(s + "'", x);
      QuotesAppend(s, "'");
      QuotesAppend(Escape(s), "'");
      QuotesBound(x);
      assert false;
    }
  }

  // ---------------------------------------------------------------- rendering one record

  /** Python's rendering of a str-or-None inside an f-string. */
  function Str(o: Option<string>): string
  {
    match o
    case Some(s) => s
    case None => "None"
  }

  /** `x or ''`. */
  function OrEmpty(o: Option<string>): string
  {
    if o.Some? then o.value else ""
  }

  /** `x.replace("'", "''") if x else ''`. */
  function EscapedOrEmpty(o: Option<string>): string
  {
    if Truthy(o) then Escape(o.value) else ""
  }

  function DigitText(d: nat): char
    requires d < 10
  {
    "0123456789"[d]
  }

  /** The decimal text of n. */
  function NatText(n: nat): (r: string)
    decreases n
  {
    if n < 10 then [DigitText(n)] else NatText(n / 10) + [DigitText(n % 10)]
  }

  function IntText(n: int): string
  {
    if n < 0 then "-" + NatText(-n) else NatText(n)
  }

  lemma {:induction false} NatTextDigits(n: nat)
    ensures |NatText(n)| > 0
    ensures forall k :: 0 <= k < |NatText(n)| ==> '0' <= NatText(n)[k] <= '9'
    decreases n
  {
    if n >= 10 {
      NatTextDigits(n / 10);
    }
  }

  /** `{rank_org or 'NULL'}`: bare, never quoted. */
  function RankValue(rank: Option<int>): SqlValue
  {
    if rank.None? || rank.value == 0 then Bare("NULL") else Bare(IntText(rank.value))
  }

  /** A falsy rank (None or 0) is written as NULL, and only a falsy one. */
  lemma RankNullIff(rank: Option<int>)
    ensures RankValue(rank) == Bare("NULL") <==> rank == None || rank == Some(0)
  {
    if rank.Some? && rank.value != 0 {
      var n := if rank.value < 0 then -rank.value else rank.value;
      NatTextDigits(n);
      assert IntText(rank.value)[0] != "NULL"[0];
    }
  }

  /** The VALUES of the companies INSERT; None when `name` is None, so that `.replace` raises. */
  function CompanyRow(c: CompanyRecord): Option<seq<SqlValue>>
  {
    if c.name.None? then None
    else Some([
      Literal(Str(c.uuid)),
      RankValue(c.rankOrg),
      Literal(Escape(c.name.value)),
      Literal(EscapedOrEmpty(c.description)),
      Literal(OrEmpty(c.website)),
      Literal(Str(c.createdAt)),
      Literal(Str(c.updatedAt)),
      Literal(Str(c.entityDefId)),
      Literal(Str(c.permalink)),
      Literal(OrEmpty(c.imageId)),
      Literal(OrEmpty(c.imageUrl)),
      Literal(EscapedOrEmpty(Get(c.websiteContent))),
      Literal(EscapedOrEmpty(Get(c.gptAnalysis)))])
  }

  /** The companies row: thirteen values, all quoted except rank_org, which is the bare NULL
      exactly when it is falsy and otherwise its decimal text, unquoted; the uuid, timestamps, entity_def_id and permalink are written as
      they are, a None among them as the text None. */
  lemma CompanyRowFields(c: CompanyRecord)
    requires c.name.Some?
    ensures CompanyRow(c).Some? && |CompanyRow(c).value| == 13
    ensures var row := CompanyRow(c).value;
      && (forall k :: 0 <= k < 13 && k != 1 ==> row[k].Literal?)
      && row[1].Bare?
      && (row[1] == Bare("NULL") <==> c.rankOrg == None || c.rankOrg == Some(0))
      && (c.rankOrg.Some? && c.rankOrg.value != 0 ==> row[1].token == IntText(c.rankOrg.value))
      && row[0].text == Str(c.uuid) && row[5].text == Str(c.createdAt) && row[6].text == Str(c.updatedAt)
      && row[7].text == Str(c.entityDefId) && row[8].text == Str(c.permalink)
  {
    RankNullIff(c.rankOrg);
  }

  /** The free-text fields of the companies row: name, description, website_content and
      gpt_analysis unescape to their values (or to '' when falsy); website, image_id and image_url
      are written as they are, unescaped, or '' when None; a falsy description, website, image,
      content or analysis gives ''. */
  lemma CompanyRowText(c: CompanyRecord)
    requires c.name.Some?
    ensures CompanyRow(c).Some? && |CompanyRow(c).value| == 13
    ensures var row := CompanyRow(c).value;
      && Unescape(row[2].text) == c.name.value
      && Unescape(row[3].text) == OrEmpty(c.description)
      && Unescape(row[11].text) == OrEmpty(Get(c.websiteContent))
      && Unescape(row[12].text) == OrEmpty(Get(c.gptAnalysis))
      && row[4].text == OrEmpty(c.website)
      && row[9].text == OrEmpty(c.imageId)
      && row[10].text == OrEmpty(c.imageUrl)
      && (row[3].text == "" <==> !Truthy(c.description))
      && (row[4].text == "" <==> !Truthy(c.website))
      && (row[9].text == "" <==> !Truthy(c.imageId))
      && (row[10].text == "" <==> !Truthy(c.imageUrl))
      && (row[11].text == "" <==> !Truthy(Get(c.websiteContent)))
      && (row[12].text == "" <==> !Truthy(Get(c.gptAnalysis)))
  {
    UnescapeEscape(c.name.value);
    EscapedOrEmptyFacts(c.description);
    EscapedOrEmptyFacts(Get(c.websiteContent));
    EscapedOrEmptyFacts(Get(c.gptAnalysis));
  }

  lemma EscapedOrEmptyFacts(o: Option<string>)
    ensures Unescape(EscapedOrEmpty(o)) == OrEmpty(o)
    ensures EscapedOrEmpty(o) == "" <==> !Truthy(o)
  {
    if Truthy(o) {
      UnescapeEscape(o.value);
      EscapeEmpty(o.value);
    }
  }

  function FacetInsert(uuid: Option<string>, facet: string): Statement
  {
    Insert(CompanyFacets, [Literal(Str(uuid)), Literal(facet)])
  }

  /** One facets INSERT per facet id, in order. */
  function FacetInserts(uuid: Option<string>, facets: seq<string>): (r: seq<Statement>)
    ensures |r| == |facets|
    ensures forall k :: 0 <= k < |facets| ==> r[k] == FacetInsert(uuid, facets[k])
    decreases |facets|
  {
    if facets == [] then []
    else FacetInserts(uuid, facets[..|facets| - 1]) + [FacetInsert(uuid, facets[|facets| - 1])]
  }

  /** The locations INSERT; None when the location's value is None, so that `.replace` raises. */
  function LocationInsert(uuid: Option<string>, l: Location): Option<Statement>
  {
    if l.value.None? then None
    else Some(Insert(CompanyLocations,
      [Literal(Str(uuid)), Literal(Escape(l.value.value)), Literal(Str(l.locationType)), Literal(Str(l.permalink))]))
  }

  /** A location is written exactly when its value is not None: four quoted values, the company
      uuid as it is, the value escaped, the type and the permalink as they are (None as the text
      None). */
  lemma LocationInsertFields(uuid: Option<string>, l: Location)
    ensures LocationInsert(uuid, l).Some? <==> l.value.Some?
    ensures l.value.Some? ==>
      var st := LocationInsert(uuid, l).value;
      var v := st.values;
      && st.table == CompanyLocations && |v| == 4
      && (forall k :: 0 <= k < 4 ==> v[k].Literal?)
      && v[0].text == Str(uuid)
      && Unescape(v[1].text) == l.value.value
      && v[2].text == Str(l.locationType)
      && v[3].text == Str(l.permalink)
  {
    if l.value.Some? {
      UnescapeEscape(l.value.value);
    }
  }

  /** The locations INSERTs, stopping at the first location whose value is None. */
  function LocationInserts(uuid: Option<string>, locations: seq<Location>): Emitted
    decreases |locations|
  {
    if locations == [] then Emitted([], true)
    else
      var prev := LocationInserts(uuid, locations[..|locations| - 1]);
      if !prev.completed then prev
      else match LocationInsert(uuid, locations[|locations| - 1])
        case None => Emitted(prev.statements, false)
        case Some(st) => Emitted(prev.statements + [st], true)
  }

  function SocialInsert(uuid: Option<string>, sm: SocialMedia): Statement
  {
    Insert(CompanySocialMedia,
      [Literal(Str(uuid)), Literal(OrEmpty(sm.facebook)), Literal(OrEmpty(sm.linkedin)), Literal(OrEmpty(sm.twitter))])
  }

  /** The social-media row: four quoted values, the company uuid, then each handle as it is, or
      '' exactly when the handle is None or empty. */
  lemma SocialInsertFields(uuid: Option<string>, sm: SocialMedia)
    ensures var st := SocialInsert(uuid, sm);
      var v := st.values;
      && st.table == CompanySocialMedia && |v| == 4
      && (forall k :: 0 <= k < 4 ==> v[k].Literal?)
      && v[0].text == Str(uuid)
      && (v[1].text == "" <==> !Truthy(sm.facebook))
      && (v[2].text == "" <==> !Truthy(sm.linkedin))
      && (v[3].text == "" <==> !Truthy(sm.twitter))
      && (Truthy(sm.facebook) ==> v[1].text == sm.facebook.value)
      && (Truthy(sm.linkedin) ==> v[2].text == sm.linkedin.value)
      && (Truthy(sm.twitter) ==> v[3].text == sm.twitter.value)
  {
  }

  /** The statements written for one company, up to the point where writing raises. */
  function CompanyBlock(c: CompanyRecord): Emitted
  {
    match CompanyRow(c)
    case None => Emitted([], false)
    case Some(row) =>
      var head := [Insert(Companies, row)];
      match c.facetIds
      case None => Emitted(head, false)
      case Some(facets) =>
        var locs := LocationInserts(c.uuid, c.locations);
        if !locs.completed then Emitted(head + FacetInserts(c.uuid, facets) + locs.statements, false)
        else Emitted(head + FacetInserts(c.uuid, facets) + locs.statements + [SocialInsert(c.uuid, c.socialMedia)], true)
  }

  /** The statements `block` writes for the first n companies, one company after the other, up
      to the first one that raises. */
  function Blocks(block: CompanyRecord -> Emitted, cs: seq<CompanyRecord>, n: nat): Emitted
    requires n <= |cs|
    decreases n
  {
    if n == 0 then Emitted([], true)
    else
      var prev := Blocks(block, cs, n - 1);
      if !prev.completed then prev
      else
        var b := block(cs[n - 1]);
        Emitted(prev.statements + b.statements, b.completed)
  }

  /** The statements for the first n companies, in order, up to the first one that raises. */
  function Body(cs: seq<CompanyRecord>, n: nat): Emitted
    requires n <= |cs|
  {
    Blocks(CompanyBlock, cs, n)
  }

  /** The whole file as `generate_sql_file` leaves it. */
  function Script(cs: seq<CompanyRecord>): Emitted
  {
    Emitted(Preamble() + Body(cs, |cs|).statements, Body(cs, |cs|).completed)
  }

  // ---------------------------------------------------------------- the method

  /** `generate_sql_file(companies_data, path)`: the file is written step by step; an exception
      stops the writing, is logged and does not propagate, and what was written stays. */
  method GenerateSqlFile(companies: seq<CompanyRecord>) returns (file: seq<Statement>, completed: bool)
    ensures Emitted(file, completed) == Script(companies)
  {
    file := Preamble();
    var i := 0;
    while i < |companies|
      invariant 0 <= i <= |companies|
      invariant Body(companies, i).completed
      invariant file == Preamble() + Body(companies, i).statements
    {
      var written, ok := WriteCompany(companies[i]);
      BodyStep(companies, i, written, ok);
      file := file + written;
      if !ok {
        return file, false;
      }
      i := i + 1;
    }
    completed := true;
  }

  /** The body of the loop over companies: the companies INSERT, the facets loop, the locations
      loop and the social-media INSERT, stopping where an exception would be raised. */
  method WriteCompany(c: CompanyRecord) returns (written: seq<Statement>, ok: bool)
    ensures Emitted(written, ok) == CompanyBlock(c)
  {
    if c.name.None? {
      return [], false;
    }
    written := [Insert(Companies, CompanyRow(c).value)];
    if c.facetIds.None? {
      return written, false;
    }
    var facets := c.facetIds.value;
    ghost var head := written;
    var j := 0;
    while j < |facets|
      invariant 0 <= j <= |facets|
      invariant written == head + FacetInserts(c.uuid, facets[..j])
    {
      assert facets[..j + 1][..j] == facets[..j];
      written := written + [FacetInsert(c.uuid, facets[j])];
      j := j + 1;
    }
    assert facets[..j] == facets;
    ghost var withFacets := written;
    var k := 0;
    while k < |c.locations|
      invariant 0 <= k <= |c.locations|
      invariant LocationInserts(c.uuid, c.locations[..k]).completed
      invariant written == withFacets + LocationInserts(c.uuid, c.locations[..k]).statements
    {
      assert c.locations[..k + 1][..k] == c.locations[..k];
      if c.locations[k].value.None? {
        LocationInsertsStopped(c.uuid, c.locations, k + 1);
        return written, false;
      }
      written := written + [LocationInsert(c.uuid, c.locations[k]).value];
      k := k + 1;
    }
    assert c.locations[..k] == c.locations;
    written := written + [SocialInsert(c.uuid, c.socialMedia)];
    ok := true;
  }

  // ---------------------------------------------------------------- lemmas used by the method

  /** Once a location has raised, later locations do not matter. */
  lemma {:induction false} LocationInsertsStopped(uuid: Option<string>, locations: seq<Location>, n: nat)
    requires n <= |locations|
    requires !LocationInserts(uuid, locations[..n]).completed
    ensures LocationInserts(uuid, locations) == LocationInserts(uuid, locations[..n])
    decreases |locations| - n
  {
    if n < |locations| {
      assert locations[..|locations| - 1][..n] == locations[..n];
      LocationInsertsStopped(uuid, locations[..|locations| - 1], n);
    } else {
      assert locations[..n] == locations;
    }
  }

  /** Once a company has raised, later companies do not matter. */
  lemma {:induction false} BlocksStopped(block: CompanyRecord -> Emitted, cs: seq<CompanyRecord>, n: nat, m: nat)
    requires n <= m <= |cs|
    requires !Blocks(block, cs, n).completed
    ensures Blocks(block, cs, m) == Blocks(block, cs, n)
    decreases m - n
  {
    if n < m {
      BlocksStopped(block, cs, n, m - 1);
    }
  }

  /** One more company extends the statements by its block; when it raises, the file ends there. */
  lemma BodyStep(cs: seq<CompanyRecord>, i: nat, written: seq<Statement>, ok: bool)
    requires i < |cs|
    requires Body(cs, i).completed
    requires Emitted(written, ok) == CompanyBlock(cs[i])
    ensures Body(cs, i + 1) == Emitted(Body(cs, i).statements + written, ok)
    ensures !ok ==> Script(cs) == Emitted(Preamble() + Body(cs, i).statements + written, false)
  {
    if !ok {
      BlocksStopped(CompanyBlock, cs, i + 1, |cs|);
    }
  }

  /** When company i is the first that raises, the file holds the preamble, the complete blocks of
      the companies before it and the part of company i's block written before the exception. */
  lemma BodyStopsAt(cs: seq<CompanyRecord>, i: nat)
    requires i < |cs|
    requires Body(cs, i).completed
    requires !CompanyBlock(cs[i]).completed
    ensures Body(cs, |cs|) == Emitted(Body(cs, i).statements + CompanyBlock(cs[i]).statements, false)
  {
    BlocksStopped(CompanyBlock, cs, i + 1, |cs|);
  }

  // ---------------------------------------------------------------- properties of the script

  /** A record the writer gets through: a name, a facet list, and a value for every location. */
  predicate WellFormed(c: CompanyRecord)
  {
    c.name.Some? && c.facetIds.Some? && forall k :: 0 <= k < |c.locations| ==> c.locations[k].value.Some?
  }

  /** The locations INSERTs complete exactly when every location has a value, and are then one
      INSERT per location, in order. */
  lemma {:induction false} LocationInsertsAll(uuid: Option<string>, locations: seq<Location>)
    ensures LocationInserts(uuid, locations).completed <==>
      forall k :: 0 <= k < |locations| ==> locations[k].value.Some?
    ensures LocationInserts(uuid, locations).completed ==>
      && |LocationInserts(uuid, locations).statements| == |locations|
      && forall k :: 0 <= k < |locations| ==>
           Some(LocationInserts(uuid, locations).statements[k]) == LocationInsert(uuid, locations[k])
    decreases |locations|
  {
    if locations != [] {
      var init := locations[..|locations| - 1];
      LocationInsertsAll(uuid, init);
      assert forall k :: 0 <= k < |init| ==> init[k] == locations[k];
    }
  }

  /** The block of one company completes exactly when the record is well formed. */
  lemma BlockCompletes(c: CompanyRecord)
    ensures CompanyBlock(c).completed <==> WellFormed(c)
  {
    LocationInsertsAll(c.uuid, c.locations);
  }

  /** The block of one company completes exactly when the record is well formed, and is then the
      companies INSERT, one facets INSERT per facet id in order, one locations INSERT per location
      in order, and the social-media INSERT. */
  lemma CompanyBlockShape(c: CompanyRecord)
    ensures CompanyBlock(c).completed <==> WellFormed(c)
    ensures WellFormed(c) ==>
      var ss := CompanyBlock(c).statements;
      var facets := c.facetIds.value;
      var n := |facets|;
      && |ss| == 2 + n + |c.locations|
      && ss[0] == Insert(Companies, CompanyRow(c).value)
      && (forall k :: 0 <= k < n ==> ss[1 + k] == FacetInsert(c.uuid, facets[k]))
      && (forall k :: 0 <= k < |c.locations| ==> Some(ss[1 + n + k]) == LocationInsert(c.uuid, c.locations[k]))
      && ss[|ss| - 1] == SocialInsert(c.uuid, c.socialMedia)
  {
    LocationInsertsAll(c.uuid, c.locations);
    if WellFormed(c) {
      var facets := c.facetIds.value;
      var head := [Insert(Companies, CompanyRow(c).value)];
      var fi := FacetInserts(c.uuid, facets);
      var li := LocationInserts(c.uuid, c.locations).statements;
      var ss := CompanyBlock(c).statements;
      assert ss == head + fi + li + [SocialInsert(c.uuid, c.socialMedia)];
      forall k | 0 <= k < |facets|
        ensures ss[1 + k] == FacetInsert(c.uuid, facets[k])
      {
        assert ss[1 + k] == fi[k];
      }
      forall k | 0 <= k < |c.locations|
        ensures Some(ss[1 + |facets| + k]) == LocationInsert(c.uuid, c.locations[k])
      {
        assert ss[1 + |facets| + k] == li[k];
      }
    }
  }

  /** Which part of its block a malformed company leaves in the file: nothing when the name is
      None, the companies INSERT alone when the facet list is None, and the companies INSERT, all
      facets and the locations before the first one without a value otherwise. */
  lemma PartialBlock(c: CompanyRecord, j: nat)
    ensures c.name.None? ==> CompanyBlock(c) == Emitted([], false)
    ensures c.name.Some? && c.facetIds.None? ==>
      CompanyBlock(c) == Emitted([Insert(Companies, CompanyRow(c).value)], false)
    ensures (c.name.Some? && c.facetIds.Some? && j < |c.locations| && c.locations[j].value.None?
             && (forall k :: 0 <= k < j ==> c.locations[k].value.Some?)) ==>
      && !CompanyBlock(c).completed
      && |CompanyBlock(c).statements| == 1 + |c.facetIds.value| + j
      && CompanyBlock(c).statements[..1 + |c.facetIds.value|]
           == [Insert(Companies, CompanyRow(c).value)] + FacetInserts(c.uuid, c.facetIds.value)
      && (forall k :: 0 <= k < j ==>
            Some(CompanyBlock(c).statements[1 + |c.facetIds.value| + k]) == LocationInsert(c.uuid, c.locations[k]))
  {
    if c.name.Some? && c.facetIds.Some? && j < |c.locations| && c.locations[j].value.None?
        && (forall k :: 0 <= k < j ==> c.locations[k].value.Some?) {
      PartialLocations(c, j);
    }
  }

  /** The case of PartialBlock where location j is the first without a value. */
  lemma PartialLocations(c: CompanyRecord, j: nat)
    requires c.name.Some? && c.facetIds.Some? && j < |c.locations| && c.locations[j].value.None?
    requires forall k :: 0 <= k < j ==> c.locations[k].value.Some?
    ensures !CompanyBlock(c).completed
    ensures var head := [Insert(Companies, CompanyRow(c).value)] + FacetInserts(c.uuid, c.facetIds.value);
      var li := LocationInserts(c.uuid, c.locations[..j]).statements;
      && CompanyBlock(c).statements == head + li
      && |li| == j
      && forall k :: 0 <= k < j ==> Some(li[k]) == LocationInsert(c.uuid, c.locations[k])
  {
    var prefix := c.locations[..j + 1];
    assert prefix[..j] == c.locations[..j];
    LocationInsertsAll(c.uuid, c.locations[..j]);
    LocationInsertsStopped(c.uuid, c.locations, j + 1);
    assert forall k :: 0 <= k < j ==> c.locations[..j][k] == c.locations[k];
  }

  /** `block` completes exactly on the well-formed records. */
  ghost predicate CompletesOnWellFormed(block: CompanyRecord -> Emitted)
  {
    forall c :: block(c).completed <==> WellFormed(c)
  }

  /** Blocks that complete exactly on well-formed records complete through the first n records
      exactly when all of those are well formed. */
  lemma {:induction false} BlocksComplete(block: CompanyRecord -> Emitted, cs: seq<CompanyRecord>, n: nat)
    requires CompletesOnWellFormed(block)
    requires n <= |cs|
    ensures Blocks(block, cs, n).completed <==> forall i :: 0 <= i < n ==> WellFormed(cs[i])
    decreases n
  {
    if n > 0 {
      BlocksComplete(block, cs, n - 1);
      if Blocks(block, cs, n - 1).completed {
        assert block(cs[n - 1]).completed == WellFormed(cs[n - 1]);
        assert Blocks(block, cs, n).completed == WellFormed(cs[n - 1]);
      } else {
        BlocksStopped(block, cs, n - 1, n);
        var i :| 0 <= i < n - 1 && !WellFormed(cs[i]);
      }
    }
  }

  /** The company blocks are such blocks. */
  lemma CompanyBlocksComplete()
    ensures CompletesOnWellFormed(CompanyBlock)
  {
    forall c: CompanyRecord ensures CompanyBlock(c).completed <==> WellFormed(c) {
      BlockCompletes(c);
    }
  }

  /** The script completes exactly when every record is well formed. */
  lemma BodyCompletes(cs: seq<CompanyRecord>, n: nat)
    requires n <= |cs|
    ensures Body(cs, n).completed <==> forall i :: 0 <= i < n ==> WellFormed(cs[i])
  {
    CompanyBlocksComplete();
    BlocksComplete(CompanyBlock, cs, n);
  }

  /** The rows inserted into table t, in the order they are written. */
  function Rows(ss: seq<Statement>, t: Table): seq<seq<SqlValue>>
    decreases |ss|
  {
    if ss == [] then []
    else
      var prev := Rows(ss[..|ss| - 1], t);
      var last := ss[|ss| - 1];
      if last.Insert? && last.table == t then prev + [last.values] else prev
  }

  lemma {:induction false} RowsAppend(a: seq<Statement>, b: seq<Statement>, t: Table)
    ensures Rows(a + b, t) == Rows(a, t) + Rows(b, t)
    decreases |b|
  {
    if b == [] {
      assert a + b == a;
    } else {
      var init := b[..|b| - 1];
      RowsAppend(a, init, t);
      assert (a + b)[..|a + b| - 1] == a + init;
      assert (a + b)[|a + b| - 1] == b[|b| - 1];
    }
  }

  /** The rows a single statement contributes. */
  lemma RowsSingle(s: Statement, t: Table)
    ensures Rows([s], t) == if s.Insert? && s.table == t then [s.values] else []
  {
    assert [s][..0] == [];
  }

  /** Rows of statements that all go to other tables. */
  lemma {:induction false} RowsOther(ss: seq<Statement>, t: Table)
    requires forall k :: 0 <= k < |ss| ==> !(ss[k].Insert? && ss[k].table == t)
    ensures Rows(ss, t) == []
    decreases |ss|
  {
    if ss != [] {
      RowsOther(ss[..|ss| - 1], t);
    }
  }

  /** Rows of statements that all go to table t: one per statement. */
  lemma {:induction false} RowsSame(ss: seq<Statement>, t: Table)
    requires forall k :: 0 <= k < |ss| ==> ss[k].Insert? && ss[k].table == t
    ensures |Rows(ss, t)| == |ss|
    decreases |ss|
  {
    if ss != [] {
      RowsSame(ss[..|ss| - 1], t);
    }
  }

  /** The rows of a block laid out as one companies INSERT, facets INSERTs, locations INSERTs and
      one social-media INSERT. */
  lemma RowsOfParts(head: Statement, fi: seq<Statement>, li: seq<Statement>, social: Statement)
    requires head.Insert? && head.table == Companies
    requires social.Insert? && social.table == CompanySocialMedia
    requires forall k :: 0 <= k < |fi| ==> fi[k].Insert? && fi[k].table == CompanyFacets
    requires forall k :: 0 <= k < |li| ==> li[k].Insert? && li[k].table == CompanyLocations
    ensures Rows([head] + fi + li + [social], Companies) == [head.values]
    ensures Rows([head] + fi + li + [social], CompanySocialMedia) == [social.values]
    ensures |Rows([head] + fi + li + [social], CompanyFacets)| == |fi|
    ensures |Rows([head] + fi + li + [social], CompanyLocations)| == |li|
  {
    var ss := [head] + fi + li + [social];
    forall t: Table
      ensures Rows(ss, t) == Rows([head], t) + Rows(fi, t) + Rows(li, t) + Rows([social], t)
    {
      RowsAppend([head] + fi + li, [social], t);
      RowsAppend([head] + fi, li, t);
      RowsAppend([head], fi, t);
    }
    RowsSingle(head, Companies); RowsSingle(head, CompanySocialMedia);
    RowsSingle(head, CompanyFacets); RowsSingle(head, CompanyLocations);
    RowsSingle(social, Companies); RowsSingle(social, CompanySocialMedia);
    RowsSingle(social, CompanyFacets); RowsSingle(social, CompanyLocations);
    RowsOther(fi, Companies); RowsOther(fi, CompanySocialMedia); RowsOther(fi, CompanyLocations);
    RowsOther(li, Companies); RowsOther(li, CompanySocialMedia); RowsOther(li, CompanyFacets);
    RowsSame(fi, CompanyFacets);
    RowsSame(li, CompanyLocations);
  }

  /** What one well-formed company contributes to each table. */
  lemma BlockRows(c: CompanyRecord)
    requires WellFormed(c)
    ensures Rows(CompanyBlock(c).statements, Companies) == [CompanyRow(c).value]
    ensures Rows(CompanyBlock(c).statements, CompanySocialMedia) == [SocialInsert(c.uuid, c.socialMedia).values]
    ensures |Rows(CompanyBlock(c).statements, CompanyFacets)| == |c.facetIds.value|
    ensures |Rows(CompanyBlock(c).statements, CompanyLocations)| == |c.locations|
  {
    LocationInsertsAll(c.uuid, c.locations);
    var head := Insert(Companies, CompanyRow(c).value);
    var fi := FacetInserts(c.uuid, c.facetIds.value);
    var li := LocationInserts(c.uuid, c.locations).statements;
    var social := SocialInsert(c.uuid, c.socialMedia);
    assert CompanyBlock(c).statements == [head] + fi + li + [social];
    assert forall k :: 0 <= k < |li| ==> li[k].Insert? && li[k].table == CompanyLocations;
    RowsOfParts(head, fi, li, social);
  }

  /** Facet ids of the first n companies. */
  function FacetTotal(cs: seq<CompanyRecord>, n: nat): nat
    requires n <= |cs|
  {
    if n == 0 then 0
    else FacetTotal(cs, n - 1) + (if cs[n - 1].facetIds.Some? then |cs[n - 1].facetIds.value| else 0)
  }

  /** Locations of the first n companies. */
  function LocationTotal(cs: seq<CompanyRecord>, n: nat): nat
    requires n <= |cs|
  {
    if n == 0 then 0 else LocationTotal(cs, n - 1) + |cs[n - 1].locations|
  }

  /** The companies rows and the social-media rows expected for the first n companies. */
  function CompanyRows(cs: seq<CompanyRecord>, n: nat): (r: seq<seq<SqlValue>>)
    requires n <= |cs|
    requires forall i :: 0 <= i < n ==> WellFormed(cs[i])
    ensures |r| == n
    ensures forall i :: 0 <= i < n ==> Some(r[i]) == CompanyRow(cs[i])
  {
    if n == 0 then [] else
      assert WellFormed(cs[n - 1]);
      CompanyRows(cs, n - 1) + [CompanyRow(cs[n - 1]).value]
  }

  function SocialRows(cs: seq<CompanyRecord>, n: nat): (r: seq<seq<SqlValue>>)
    requires n <= |cs|
    ensures |r| == n
    ensures forall i :: 0 <= i < n ==> r[i] == SocialInsert(cs[i].uuid, cs[i].socialMedia).values
  {
    if n == 0 then [] else SocialRows(cs, n - 1) + [SocialInsert(cs[n - 1].uuid, cs[n - 1].socialMedia).values]
  }

  /** On a well-formed record `block` writes one companies row, the record's row, and one
      social-media row. */
  ghost predicate RowsPerBlock(block: CompanyRecord -> Emitted)
  {
    forall c :: WellFormed(c) ==>
      && Rows(block(c).statements, Companies) == [CompanyRow(c).value]
      && Rows(block(c).statements, CompanySocialMedia) == [SocialInsert(c.uuid, c.socialMedia).values]
  }

  /** On a well-formed record `block` writes one facets row per facet id and one locations row
      per location. */
  ghost predicate ItemRowsPerBlock(block: CompanyRecord -> Emitted)
  {
    forall c :: WellFormed(c) ==>
      && |Rows(block(c).statements, CompanyFacets)| == |c.facetIds.value|
      && |Rows(block(c).statements, CompanyLocations)| == |c.locations|
  }

  /** The companies rows and social-media rows of the first n well-formed companies: one each
      per company, in input order. */
  lemma {:induction false} BlocksRows(block: CompanyRecord -> Emitted, cs: seq<CompanyRecord>, n: nat)
    requires CompletesOnWellFormed(block) && RowsPerBlock(block)
    requires n <= |cs|
    requires forall i :: 0 <= i < n ==> WellFormed(cs[i])
    ensures Rows(Blocks(block, cs, n).statements, Companies) == CompanyRows(cs, n)
    ensures Rows(Blocks(block, cs, n).statements, CompanySocialMedia) == SocialRows(cs, n)
    decreases n
  {
    if n > 0 {
      BlocksRows(block, cs, n - 1);
      BlocksComplete(block, cs, n - 1);
      var c := cs[n - 1];
      assert WellFormed(c);
      var prev := Blocks(block, cs, n - 1).statements;
      var b := block(c).statements;
      assert Blocks(block, cs, n).statements == prev + b;
      RowsAppend(prev, b, Companies);
      RowsAppend(prev, b, CompanySocialMedia);
    }
  }

  /** The facets rows and locations rows of the first n well-formed companies: one per facet id
      and one per location. */
  lemma {:induction false} BlocksItemRows(block: CompanyRecord -> Emitted, cs: seq<CompanyRecord>, n: nat)
    requires CompletesOnWellFormed(block) && ItemRowsPerBlock(block)
    requires n <= |cs|
    requires forall i :: 0 <= i < n ==> WellFormed(cs[i])
    ensures |Rows(Blocks(block, cs, n).statements, CompanyFacets)| == FacetTotal(cs, n)
    ensures |Rows(Blocks(block, cs, n).statements, CompanyLocations)| == LocationTotal(cs, n)
    decreases n
  {
    if n > 0 {
      BlocksItemRows(block, cs, n - 1);
      BlocksComplete(block, cs, n - 1);
      var c := cs[n - 1];
      assert WellFormed(c);
      var prev := Blocks(block, cs, n - 1).statements;
      var b := block(c).statements;
      assert Blocks(block, cs, n).statements == prev + b;
      RowsAppend(prev, b, CompanyFacets);
      RowsAppend(prev, b, CompanyLocations);
    }
  }

  /** The company blocks write those rows. */
  lemma CompanyBlocksRows()
    ensures RowsPerBlock(CompanyBlock) && ItemRowsPerBlock(CompanyBlock)
  {
    forall c: CompanyRecord | WellFormed(c)
      ensures Rows(CompanyBlock(c).statements, Companies) == [CompanyRow(c).value]
      ensures Rows(CompanyBlock(c).statements, CompanySocialMedia) == [SocialInsert(c.uuid, c.socialMedia).values]
      ensures |Rows(CompanyBlock(c).statements, CompanyFacets)| == |c.facetIds.value|
      ensures |Rows(CompanyBlock(c).statements, CompanyLocations)| == |c.locations|
    {
      BlockRows(c);
    }
  }

  /** For well-formed records the script completes; it holds one companies row and one
      social-media row per company, in input order, one facets row per facet id and one locations
      row per location; the preamble inserts nothing. */
  lemma ScriptRows(cs: seq<CompanyRecord>)
    requires forall i :: 0 <= i < |cs| ==> WellFormed(cs[i])
    ensures Script(cs).completed
    ensures var ss := Script(cs).statements;
      && |Rows(ss, Companies)| == |cs|
      && (forall i :: 0 <= i < |cs| ==> Some(Rows(ss, Companies)[i]) == CompanyRow(cs[i]))
      && |Rows(ss, CompanySocialMedia)| == |cs|
      && (forall i :: 0 <= i < |cs| ==> Rows(ss, CompanySocialMedia)[i] == SocialInsert(cs[i].uuid, cs[i].socialMedia).values)
      && |Rows(ss, CompanyFacets)| == FacetTotal(cs, |cs|)
      && |Rows(ss, CompanyLocations)| == LocationTotal(cs, |cs|)
  {
    CompanyBlocksComplete();
    CompanyBlocksRows();
    ScriptRowsOf(CompanyBlock, cs);
  }

  /** The same for any blocks that complete on well-formed records and write those rows, with the
      preamble in front. */
  lemma ScriptRowsOf(block: CompanyRecord -> Emitted, cs: seq<CompanyRecord>)
    requires CompletesOnWellFormed(block) && RowsPerBlock(block) && ItemRowsPerBlock(block)
    requires forall i :: 0 <= i < |cs| ==> WellFormed(cs[i])
    ensures Blocks(block, cs, |cs|).completed
    ensures var ss := Preamble() + Blocks(block, cs, |cs|).statements;
      && |Rows(ss, Companies)| == |cs|
      && (forall i :: 0 <= i < |cs| ==> Some(Rows(ss, Companies)[i]) == CompanyRow(cs[i]))
      && |Rows(ss, CompanySocialMedia)| == |cs|
      && (forall i :: 0 <= i < |cs| ==> Rows(ss, CompanySocialMedia)[i] == SocialInsert(cs[i].uuid, cs[i].socialMedia).values)
      && |Rows(ss, CompanyFacets)| == FacetTotal(cs, |cs|)
      && |Rows(ss, CompanyLocations)| == LocationTotal(cs, |cs|)
  {
    BlocksComplete(block, cs, |cs|);
    BlocksRows(block, cs, |cs|);
    BlocksItemRows(block, cs, |cs|);
    var body := Blocks(block, cs, |cs|).statements;
    PreambleAddsNoRows(body, Companies);
    PreambleAddsNoRows(body, CompanySocialMedia);
    PreambleAddsNoRows(body, CompanyFacets);
    PreambleAddsNoRows(body, CompanyLocations);
  }

  /** The preamble inserts no row into any table. */
  lemma PreambleAddsNoRows(body: seq<Statement>, t: Table)
    ensures Rows(Preamble() + body, t) == Rows(body, t)
  {
    RowsOther(Preamble(), t);
    RowsAppend(Preamble(), body, t);
  }

  /** The script runs to the end exactly when every record is well formed. */
  lemma ScriptCompletes(cs: seq<CompanyRecord>)
    ensures Script(cs).completed <==> forall i :: 0 <= i < |cs| ==> WellFormed(cs[i])
  {
    BodyCompletes(cs, |cs|);
  }

  /** When record i is the first malformed one, the script stops there: it holds the preamble, the
      blocks of the records before it, and the part of record i's block written before the error. */
  lemma ScriptAtFirstFailure(cs: seq<CompanyRecord>, i: nat)
    requires i < |cs|
    requires forall k :: 0 <= k < i ==> WellFormed(cs[k])
    requires !WellFormed(cs[i])
    ensures !Script(cs).completed
    ensures Script(cs).statements == Preamble() + Body(cs, i).statements + CompanyBlock(cs[i]).statements
  {
    BodyCompletes(cs, i);
    assert Body(cs, i).completed;
    BlockCompletes(cs[i]);
    BodyStopsAt(cs, i);
  }

  /** `block` writes nothing but INSERTs. */
  ghost predicate InsertsOnly(block: CompanyRecord -> Emitted)
  {
    forall c :: forall k :: 0 <= k < |block(c).statements| ==> block(c).statements[k].Insert?
  }

  lemma {:induction false} BlocksInsertsOnly(block: CompanyRecord -> Emitted, cs: seq<CompanyRecord>, n: nat)
    requires InsertsOnly(block)
    requires n <= |cs|
    ensures forall k :: 0 <= k < |Blocks(block, cs, n).statements| ==> Blocks(block, cs, n).statements[k].Insert?
    decreases n
  {
    if n > 0 {
      BlocksInsertsOnly(block, cs, n - 1);
      var prev := Blocks(block, cs, n - 1);
      if prev.completed {
        var b := block(cs[n - 1]).statements;
        assert forall k :: 0 <= k < |b| ==> b[k].Insert?;
        assert Blocks(block, cs, n).statements == prev.statements + b;
      }
    }
  }

  /** A company block is made of INSERTs. */
  lemma CompanyBlocksInsertsOnly()
    ensures InsertsOnly(CompanyBlock)
  {
    forall c ensures forall k :: 0 <= k < |CompanyBlock(c).statements| ==> CompanyBlock(c).statements[k].Insert? {
      var uuid := c.uuid;
      if CompanyRow(c).Some? && c.facetIds.Some? {
        LocationInsertsInsertsOnly(uuid, c.locations);
      }
    }
  }

  lemma {:induction false} LocationInsertsInsertsOnly(uuid: Option<string>, locations: seq<Location>)
    ensures forall k :: 0 <= k < |LocationInserts(uuid, locations).statements| ==>
      LocationInserts(uuid, locations).statements[k].Insert?
    decreases |locations|
  {
    if locations != [] {
      LocationInsertsInsertsOnly(uuid, locations[..|locations| - 1]);
    }
  }

  /** The tables are created and cleared once, at the top of the file: the preamble opens it, and
      everything after it is an INSERT. */
  lemma PreambleOnce(cs: seq<CompanyRecord>)
    ensures |Script(cs).statements| >= 8 && Script(cs).statements[..8] == Preamble()
    ensures forall k :: 8 <= k < |Script(cs).statements| ==> Script(cs).statements[k].Insert?
  {
    CompanyBlocksInsertsOnly();
    BlocksInsertsOnly(CompanyBlock, cs, |cs|);
    var body := Body(cs, |cs|).statements;
    assert Script(cs).statements == Preamble() + body;
    forall k | 8 <= k < |Script(cs).statements| ensures Script(cs).statements[k].Insert? {
      assert Script(cs).statements[k] == body[k - 8];
    }
  }

  /** An empty company list gives the preamble alone. */
  lemma ScriptOfNoCompanies()
    ensures Script([]) == Emitted(Preamble(), true)
  {
  }
}
