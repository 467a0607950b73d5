/** What every serialized JSON value has in common: brackets nest, a colon stands inside
    brackets or a string, and a backslash inside a string. That is enough to know that no
    JSON value ends with a colon and another JSON value. */
module JsonText {
  import opened Sequences

  /** Where a reader of the text is, with the number of open brackets. */
  datatype Place = Outside(depth: nat) | Quoted(depth: nat) | Escaped(depth: nat) | Broken

  function Read(p: Place, c: char): Place {
    match p
    case Outside(d) =>
      if c == '"' then Quoted(d)
      else if c == '[' || c == '{' then Outside(d + 1)
      else if c == ']' || c == '}' then if d == 0 then Broken else Outside(d - 1)
      else if c == '\\' || (c == ':' && d == 0) then Broken
      else p
    case Quoted(d) => if c == '"' then Outside(d) else if c == '\\' then Escaped(d) else p
    case Escaped(d) => Quoted(d)
    case Broken => Broken
  }

  function ReadAll(p: Place, s: string): Place { if s == "" then p else Read(ReadAll(p, Front(s)), Final(s)) }

  predicate IsJson(s: string) { ReadAll(Outside(0), s) == Outside(0) }

  lemma {:induction false} ReadTwice(p: Place, s: string, t: string)
    ensures ReadAll(p, s + t) == ReadAll(ReadAll(p, s), t)
    decreases |t|
  {
    if t == "" {
      assert s + t == s;
    } else {
      ReadTwice(p, s, Front(t));
      assert s + t == s + Front(t) + [Final(t)];
      Snoc(s + Front(t), Final(t));
    }
  }

  /** Deeper by `d`. */
  function Lifted(p: Place, d: nat): Place {
    match p
    case Outside(k) => Outside(k + d)
    case Quoted(k) => Quoted(k + d)
    case Escaped(k) => Escaped(k + d)
    case Broken => Broken
  }

  /** What can be read outside of everything can be read inside of brackets. */
  lemma {:induction false} ReadsInside(s: string, d: nat)
    requires ReadAll(Outside(0), s) != Broken
    ensures ReadAll(Outside(d), s) == Lifted(ReadAll(Outside(0), s), d)
    decreases |s|
  {
    if s != "" { ReadsInside(Front(s), d); }
  }

  /** Where one reader is inside a string and the other is not, or the second one has failed. */
  predicate Opposed(p: Place, q: Place) { q == Broken || (p.Outside? && q.Quoted?) || (p.Quoted? && q.Outside?) }

  /** Read from within a string, a JSON text never ends outside of one. */
  lemma {:induction false} ReadsOpposed(s: string, d: nat)
    requires ReadAll(Outside(0), s) != Broken
    ensures Opposed(ReadAll(Outside(0), s), ReadAll(Quoted(d), s))
    decreases |s|
  {
    if s != "" { ReadsOpposed(Front(s), d); }
  }

  /** Main result: no JSON text ends with a colon and another JSON text. */
  lemma NoJsonAfterColon(x: string, json: string)
    requires IsJson(json)
    ensures !IsJson(x + ":" + json)
  {
    var p := ReadAll(Outside(0), x);
    Snoc(x, ':');
    ReadTwice(Outside(0), x + ":", json);
    var q := ReadAll(Outside(0), x + ":");
    assert q == Read(p, ':');
    if q.Outside? {
      ReadsInside(json, q.depth);
    } else if q.Quoted? {
      ReadsOpposed(json, q.depth);
    } else {
      StaysBroken(json);
    }
  }

  lemma {:induction false} StaysBroken(s: string)
    ensures ReadAll(Broken, s) == Broken
    decreases |s|
  {
    if s != "" { StaysBroken(Front(s)); }
  }

  /** So a line of a name, a colon and JSON can be cut in one way only, whatever the name is. */
  lemma OneCut(name: string, json: string, name': string, json': string)
    requires name + ":" + json == name' + ":" + json' && IsJson(json) && IsJson(json')
    ensures name == name' && json == json'
  {
    if |name| < |name'| {
      Shorter(name, json, name', json');
    } else if |name'| < |name| {
      Shorter(name', json', name, json);
    } else {
      var line, n := name + ":" + json, |name|;
      assert name == line[..n] && json == line[n + 1..];
      assert name' == line[..n] && json' == line[n + 1..];
    }
  }

  lemma Shorter(name: string, json: string, name': string, json': string)
    requires name + ":" + json == name' + ":" + json' && |name| < |name'| && IsJson(json')
    ensures !IsJson(json)
  {
    var line, n, m := name + ":" + json, |name|, |name'|;
    var x := line[n + 1..m];
    assert line == name' + ":" + json';
    assert json == line[n + 1..];
    assert line[m] == ':' && json' == line[m + 1..];
    assert json == x + ":" + json';
    NoJsonAfterColon(x, json');
  }

  // ---- printed values ---------------------------------------------------------------

  /** A character of a string as it is printed: as itself, or behind a backslash. */
  datatype Glyph = Plain(c: char) | Escape(c: char)

  /** A JSON value; numbers, booleans and null are atoms. */
  datatype Value = Atom(text: string) | Text(glyphs: seq<Glyph>) | Array(items: Items) | Object(members: Members)

  datatype Items = NoItem | Item(head: Value, tail: Items)

  datatype Members = NoMember | Member(name: seq<Glyph>, value: Value, tail: Members)

  predicate Bare(c: char) { c !in {'"', '[', ']', '{', '}', '\\', ':', '\n'} }

  predicate GlyphOk(g: Glyph) { g.c != '\n' && (g.Plain? ==> g.c != '"' && g.c != '\\') }

  predicate GlyphsOk(gs: seq<Glyph>) { forall i | 0 <= i < |gs| :: GlyphOk(gs[i]) }

  predicate Ok(v: Value) {
    match v
    case Atom(t) => forall i | 0 <= i < |t| :: Bare(t[i])
    case Text(gs) => GlyphsOk(gs)
    case Array(xs) => ItemsOk(xs)
    case Object(ms) => MembersOk(ms)
  }

  predicate ItemsOk(xs: Items) { xs.Item? ==> Ok(xs.head) && ItemsOk(xs.tail) }

  predicate MembersOk(ms: Members) { ms.Member? ==> GlyphsOk(ms.name) && Ok(ms.value) && MembersOk(ms.tail) }

  function Glyphs(gs: seq<Glyph>): string {
    if gs == [] then ""
    else
      var g := Final(gs);
      Glyphs(Front(gs)) + if g.Plain? then [g.c] else ['\\'] + [g.c]
  }

  function Quote(gs: seq<Glyph>): string { "\"" + Glyphs(gs) + "\"" }

  /** Compact printing, with "," and ":" as separators. */
  function Print(v: Value): string {
    match v
    case Atom(t) => t
    case Text(gs) => Quote(gs)
    case Array(xs) => "[" + PrintItems(xs) + "]"
    case Object(ms) => "{" + PrintMembers(ms) + "}"
  }

  function PrintItems(xs: Items): string {
    match xs
    case NoItem => ""
    case Item(v, rest) => Print(v) + if rest.NoItem? then "" else "," + PrintItems(rest)
  }

  function PrintMembers(ms: Members): string {
    match ms
    case NoMember => ""
    case Member(name, v, rest) =>
      Quote(name) + ":" + Print(v) + if rest.NoMember? then "" else "," + PrintMembers(rest)
  }

  /** Reading `s` from `p` ends at `q`, and `s` is one line. */
  predicate Passes(p: Place, s: string, q: Place) { ReadAll(p, s) == q && '\n' !in s }

  lemma PassesBoth(p: Place, s: string, q: Place, t: string, r: Place)
    requires Passes(p, s, q) && Passes(q, t, r)
    ensures Passes(p, s + t, r)
  {
    ReadTwice(p, s, t);
  }

  lemma PassesOne(p: Place, c: char)
    requires c != '\n'
    ensures Passes(p, [c], Read(p, c))
  {
    assert Front([c]) == [] && ReadAll(p, []) == p;
  }

  lemma {:induction false} BarePasses(s: string, d: nat)
    requires forall i | 0 <= i < |s| :: Bare(s[i])
    ensures Passes(Outside(d), s, Outside(d))
    decreases |s|
  {
    if s != "" { BarePasses(Front(s), d); }
  }

  lemma {:induction false} GlyphsPass(gs: seq<Glyph>, d: nat)
    requires GlyphsOk(gs)
    ensures Passes(Quoted(d), Glyphs(gs), Quoted(d))
    decreases |gs|
  {
    if gs != [] {
      var g := Final(gs);
      GlyphsPass(Front(gs), d);
      PassesOne(Quoted(d), if g.Plain? then g.c else '\\');
      if g.Plain? {
        PassesBoth(Quoted(d), Glyphs(Front(gs)), Quoted(d), [g.c], Quoted(d));
      } else {
        PassesOne(Escaped(d), g.c);
        PassesBoth(Quoted(d), ['\\'], Escaped(d), [g.c], Quoted(d));
        PassesBoth(Quoted(d), Glyphs(Front(gs)), Quoted(d), ['\\'] + [g.c], Quoted(d));
      }
    }
  }

  lemma QuotePasses(gs: seq<Glyph>, d: nat)
    requires GlyphsOk(gs)
    ensures Passes(Outside(d), Quote(gs), Outside(d))
  {
    PassesOne(Outside(d), '"');
    GlyphsPass(gs, d);
    PassesBoth(Outside(d), "\"", Quoted(d), Glyphs(gs), Quoted(d));
    PassesOne(Quoted(d), '"');
    PassesBoth(Outside(d), "\"" + Glyphs(gs), Quoted(d), "\"", Outside(d));
  }

  lemma BracketsPass(open: char, inner: string, close: char, d: nat)
    requires (open == '[' || open == '{') && (close == ']' || close == '}')
    requires Passes(Outside(d + 1), inner, Outside(d + 1))
    ensures Passes(Outside(d), [open] + inner + [close], Outside(d))
  {
    PassesOne(Outside(d), open);
    PassesBoth(Outside(d), [open], Outside(d + 1), inner, Outside(d + 1));
    PassesOne(Outside(d + 1), close);
    PassesBoth(Outside(d), [open] + inner, Outside(d + 1), [close], Outside(d));
  }

  lemma {:induction false} PrintPasses(v: Value, d: nat)
    requires Ok(v)
    ensures Passes(Outside(d), Print(v), Outside(d))
    decreases v
  {
    match v
    case Atom(t) => BarePasses(t, d);
    case Text(gs) => QuotePasses(gs, d);
    case Array(xs) =>
      ItemsPass(xs, d + 1);
      BracketsPass('[', PrintItems(xs), ']', d);
    case Object(ms) =>
      MembersPass(ms, d + 1);
      BracketsPass('{', PrintMembers(ms), '}', d);
  }

  lemma {:induction false} ItemsPass(xs: Items, d: nat)
    requires ItemsOk(xs)
    ensures Passes(Outside(d), PrintItems(xs), Outside(d))
    decreases xs
  {
    match xs
    case NoItem =>
    case Item(v, rest) =>
      PrintPasses(v, d);
      ItemsPass(rest, d);
      RestPasses(Print(v), PrintItems(rest), rest.NoItem?, d);
  }

  lemma {:induction false} MembersPass(ms: Members, d: nat)
    requires MembersOk(ms) && d > 0
    ensures Passes(Outside(d), PrintMembers(ms), Outside(d))
    decreases ms
  {
    match ms
    case NoMember =>
    case Member(name, v, rest) =>
      QuotePasses(name, d);
      PassesOne(Outside(d), ':');
      PassesBoth(Outside(d), Quote(name), Outside(d), ":", Outside(d));
      PrintPasses(v, d);
      PassesBoth(Outside(d), Quote(name) + ":", Outside(d), Print(v), Outside(d));
      MembersPass(rest, d);
      RestPasses(Quote(name) + ":" + Print(v), PrintMembers(rest), rest.NoMember?, d);
  }

  lemma RestPasses(first: string, rest: string, none: bool, d: nat)
    requires Passes(Outside(d), first, Outside(d)) && Passes(Outside(d), rest, Outside(d))
    ensures Passes(Outside(d), first + if none then "" else "," + rest, Outside(d))
  {
    if none {
      assert first + "" == first;
    } else {
      PassesOne(Outside(d), ',');
      PassesBoth(Outside(d), ",", Outside(d), rest, Outside(d));
      PassesBoth(Outside(d), first, Outside(d), "," + rest, Outside(d));
    }
  }

  /** Every printed JSON value is read as JSON and is one line. */
  lemma PrintedIsJson(v: Value)
    requires Ok(v)
    ensures IsJson(Print(v)) && '\n' !in Print(v)
  {
    PrintPasses(v, 0);
  }
}
