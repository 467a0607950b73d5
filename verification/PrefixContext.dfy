/** The append-stable serialization of a request and the anchor lengths (core/kv_affinity.py,
    `canonical_context` and `AnchorPolicy`). One char stands for one byte of the text. */
module PrefixContext {
  import opened Basics
  import opened Sequences
  import JsonText

  /** A JSON value: its serialization, and those of its elements when it is a list. */
  datatype Value = Value(json: string, items: Option<seq<string>>)

  /** Fields of a request come in sorted key order; nothing else about their order matters. */
  datatype Field = Field(key: string, value: Value)

  const HEAD: seq<string> :=
    ["system", "tools", "tool_choice", "response_format", "format", "think", "raw", "context_builder", "template"]

  const LATE: seq<string> := ["prompt", "input"]

  const NON_PROMPT: set<string> := {
    "model", "stream", "worker", "priority", "queue_timeout", "timeout", "request_timeout", "run_timeout",
    "keep_alive", "log", "envid", "save_llm_request", "opencode_session", "request_kind", "prompt_cache_key",
    "options", "temperature", "top_p", "top_k", "min_p", "typical_p", "seed", "max_tokens",
    "max_completion_tokens", "num_predict", "presence_penalty", "frequency_penalty", "repeat_penalty",
    "repeat_last_n", "stop", "n", "user"
  }

  predicate Selected(key: string) { key !in NON_PROMPT && (key == "" || key[0] != '_') }

  predicate Remaining(key: string) { Selected(key) && key !in HEAD && key !in LATE && key != "messages" }

  function Find(fields: seq<Field>, key: string): Option<Value> {
    if fields == [] then None else if fields[0].key == key then Some(fields[0].value) else Find(fields[1..], key)
  }

  /** What one line of the text says. */
  datatype Entry = Entry(key: string, json: string)

  function Line(e: Entry): string { e.key + ":" + e.json }

  function Lines(es: seq<Entry>): seq<string> { if es == [] then [] else [Line(es[0])] + Lines(es[1..]) }

  function Kind(kind: string): string { if kind == "" then "chat" else kind }

  function Named(fields: seq<Field>, names: seq<string>): seq<Entry> {
    if names == [] then []
    else
      var v, rest := Find(fields, names[0]), Named(fields, names[1..]);
      if v.Some? then [Entry(names[0], v.value.json)] + rest else rest
  }

  function Turns(items: seq<string>): seq<Entry> {
    if items == [] then [] else [Entry("message", items[0])] + Turns(items[1..])
  }

  /** One line per message of a list; an absent or null field says nothing, like an empty list. */
  function Messages(v: Option<Value>): seq<Entry> {
    if v.None? then []
    else if v.value.items.Some? then Turns(v.value.items.value)
    else if v.value.json == "null" then []
    else [Entry("messages", v.value.json)]
  }

  function Rest(fields: seq<Field>): seq<Entry> {
    if fields == [] then []
    else if Remaining(fields[0].key) then [Entry(fields[0].key, fields[0].value.json)] + Rest(fields[1..])
    else Rest(fields[1..])
  }

  /** Everything a request says, part by part. */
  datatype Content = Content(kind: string, head: seq<Entry>, messages: seq<Entry>, late: seq<Entry>, rest: seq<Entry>)

  function Said(fields: seq<Field>, kind: string): Content {
    Content(Kind(kind), Named(fields, HEAD), Messages(Find(fields, "messages")), Named(fields, LATE), Rest(fields))
  }

  function TailOf(c: Content): seq<Entry> { c.late + c.rest }

  function Entries(c: Content): seq<Entry> { c.head + c.messages + TailOf(c) }

  function Canonical(fields: seq<Field>, kind: string): string {
    Joined(["kv1", Kind(kind)] + Lines(Entries(Said(fields, kind))), "\n")
  }

  method NamedLines(fields: seq<Field>, names: seq<string>) returns (parts: seq<string>)
    ensures parts == Lines(Named(fields, names))
  {
    var rest := names;
    parts := [];
    while rest != []
      invariant parts + Lines(Named(fields, rest)) == Lines(Named(fields, names))
      decreases |rest|
    {
      var v := Find(fields, rest[0]);
      if v.Some? {
        parts := parts + [rest[0] + ":" + v.value.json];
        assert Named(fields, rest)[1..] == Named(fields, rest[1..]);
      }
      rest := rest[1..];
    }
    assert parts + Lines(Named(fields, rest)) == parts;
  }

  method MessageLines(messages: Option<Value>) returns (parts: seq<string>)
    ensures parts == Lines(Messages(messages))
  {
    parts := [];
    if messages.Some? && messages.value.items.Some? {
      var rest := messages.value.items.value;
      while rest != []
        invariant parts + Lines(Turns(rest)) == Lines(Messages(messages))
        decreases |rest|
      {
        assert Turns(rest)[1..] == Turns(rest[1..]);
        parts, rest := parts + ["message" + ":" + rest[0]], rest[1..];
      }
      assert parts + Lines(Turns(rest)) == parts;
    } else if messages.Some? && messages.value.json != "null" {
      parts := ["messages" + ":" + messages.value.json];
    }
  }

  method OtherLines(fields: seq<Field>) returns (parts: seq<string>)
    ensures parts == Lines(Rest(fields))
  {
    var rest := fields;
    parts := [];
    while rest != []
      invariant parts + Lines(Rest(rest)) == Lines(Rest(fields))
      decreases |rest|
    {
      if Remaining(rest[0].key) {
        parts := parts + [rest[0].key + ":" + rest[0].value.json];
        assert Rest(rest)[1..] == Rest(rest[1..]);
      }
      rest := rest[1..];
    }
    assert parts + Lines(Rest(rest)) == parts;
  }

  method CanonicalContext(fields: seq<Field>, kind: string) returns (text: string)
    ensures text == Canonical(fields, kind)
  {
    var parts := ["kv1", if kind == "" then "chat" else kind];
    var head := NamedLines(fields, HEAD);
    var messages := MessageLines(Find(fields, "messages"));
    var late := NamedLines(fields, LATE);
    var others := OtherLines(fields);
    var c := Said(fields, kind);
    LinesAppend(c.head, c.messages);
    LinesAppend(c.late, c.rest);
    LinesAppend(c.head + c.messages, TailOf(c));
    text := Joined(parts + (head + messages + (late + others)), "\n");
  }

  lemma {:induction false} LinesAppend(a: seq<Entry>, b: seq<Entry>)
    ensures Lines(a + b) == Lines(a) + Lines(b)
    decreases |a|
  {
    if a == [] {
      assert a + b == b;
    } else {
      assert (a + b)[1..] == a[1..] + b;
      LinesAppend(a[1..], b);
    }
  }

  // ---- the text as a string ---------------------------------------------------------

  function Text(es: seq<Entry>): string { if es == [] then "" else "\n" + Line(es[0]) + Text(es[1..]) }

  lemma {:induction false} TextAppend(a: seq<Entry>, b: seq<Entry>)
    ensures Text(a + b) == Text(a) + Text(b)
    decreases |a|
  {
    if a == [] {
      assert a + b == b;
    } else {
      assert (a + b)[1..] == a[1..] + b;
      TextAppend(a[1..], b);
      Regroup("\n" + Line(a[0]), Text(a[1..]), Text(b));
    }
  }

  lemma {:induction false} JoinedText(first: string, es: seq<Entry>)
    ensures Joined([first] + Lines(es), "\n") == first + Text(es)
    decreases |es|
  {
    assert ([first] + Lines(es))[1..] == Lines(es);
    if es == [] {
      assert first + "" == first;
    } else {
      var line, rest := Line(es[0]), Text(es[1..]);
      JoinedText(line, es[1..]);
      assert Lines(es) == [line] + Lines(es[1..]);
      Regroup("\n", line, rest);
      Regroup(first, "\n", line + rest);
    }
  }

  lemma CanonicalText(fields: seq<Field>, kind: string)
    ensures Canonical(fields, kind) == "kv1\n" + (Kind(kind) + Text(Entries(Said(fields, kind))))
  {
    var k, lines := Kind(kind), Lines(Entries(Said(fields, kind)));
    JoinedText(k, Entries(Said(fields, kind)));
    assert (["kv1", k] + lines)[1..] == [k] + lines;
    assert "kv1" + "\n" == "kv1\n";
  }

  // ---- growing conversations --------------------------------------------------------

  /** The same request with more messages; `json` is the new serialization of the list. */
  function Grown(fields: seq<Field>, more: seq<string>, json: string): seq<Field> {
    if fields == [] then []
    else
      var f := fields[0];
      var grown :=
        if f.key == "messages" && f.value.items.Some? then Field(f.key, Value(json, Some(f.value.items.value + more)))
          else f;
      [grown] + Grown(fields[1..], more, json)
  }

  lemma {:induction false} GrownFinds(fields: seq<Field>, more: seq<string>, json: string, key: string)
    ensures key != "messages" ==> Find(Grown(fields, more, json), key) == Find(fields, key)
    ensures var v := Find(fields, "messages"); v.Some? && v.value.items.Some? ==>
      Find(Grown(fields, more, json), "messages") == Some(Value(json, Some(v.value.items.value + more)))
    decreases |fields|
  {
    if fields != [] {
      GrownFinds(fields[1..], more, json, key);
      assert Grown(fields, more, json)[1..] == Grown(fields[1..], more, json);
    }
  }

  lemma {:induction false} GrownNames(fields: seq<Field>, more: seq<string>, json: string, names: seq<string>)
    requires "messages" !in names
    ensures Named(Grown(fields, more, json), names) == Named(fields, names)
    decreases |names|
  {
    if names != [] {
      GrownFinds(fields, more, json, names[0]);
      GrownNames(fields, more, json, names[1..]);
    }
  }

  lemma {:induction false} GrownRest(fields: seq<Field>, more: seq<string>, json: string)
    ensures Rest(Grown(fields, more, json)) == Rest(fields)
    decreases |fields|
  {
    if fields != [] {
      GrownRest(fields[1..], more, json);
      assert Grown(fields, more, json)[1..] == Grown(fields[1..], more, json);
    }
  }

  lemma {:induction false} TurnsAppend(a: seq<string>, b: seq<string>)
    ensures Turns(a + b) == Turns(a) + Turns(b)
    decreases |a|
  {
    if a == [] {
      assert a + b == b;
    } else {
      assert (a + b)[1..] == a[1..] + b;
      TurnsAppend(a[1..], b);
    }
  }

  predicate HasMessages(fields: seq<Field>) {
    Find(fields, "messages").Some? && Find(fields, "messages").value.items.Some?
  }

  /** What stands behind the messages. */
  function Tail(fields: seq<Field>): seq<Entry> { Named(fields, LATE) + Rest(fields) }

  /** The text up to and including the messages. */
  function Upto(fields: seq<Field>, kind: string): string {
    "kv1\n" + (Kind(kind) + Text(Named(fields, HEAD) + Messages(Find(fields, "messages"))))
  }

  lemma SplitText(fields: seq<Field>, kind: string)
    ensures Canonical(fields, kind) == Upto(fields, kind) + Text(Tail(fields))
  {
    CanonicalText(fields, kind);
    var before, tail := Named(fields, HEAD) + Messages(Find(fields, "messages")), Tail(fields);
    TextAppend(before, tail);
    Regroup(Kind(kind), Text(before), Text(tail));
    Regroup("kv1\n", Kind(kind) + Text(before), Text(tail));
  }

  lemma GrownSays(fields: seq<Field>, more: seq<string>, json: string)
    requires HasMessages(fields)
    ensures var g := Grown(fields, more, json);
      && Named(g, HEAD) == Named(fields, HEAD) && Tail(g) == Tail(fields)
      && Messages(Find(g, "messages")) == Messages(Find(fields, "messages")) + Turns(more)
  {
    NamesAreNotMessages();
    GrownNames(fields, more, json, HEAD);
    GrownNames(fields, more, json, LATE);
    GrownRest(fields, more, json);
    GrownFinds(fields, more, json, "messages");
    TurnsAppend(Find(fields, "messages").value.items.value, more);
  }

  lemma GrownText(fields: seq<Field>, kind: string, more: seq<string>, json: string)
    requires HasMessages(fields)
    ensures Canonical(Grown(fields, more, json), kind) == Upto(fields, kind) + (Text(Turns(more)) + Text(Tail(fields)))
  {
    var g, head, had := Grown(fields, more, json), Named(fields, HEAD), Messages(Find(fields, "messages"));
    GrownSays(fields, more, json);
    SplitText(g, kind);
    Regroup(head, had, Turns(more));
    TextAppend(head + had, Turns(more));
    Regroup(Kind(kind), Text(head + had), Text(Turns(more)));
    Regroup("kv1\n", Kind(kind) + Text(head + had), Text(Turns(more)));
    Regroup(Upto(fields, kind), Text(Turns(more)), Text(Tail(fields)));
  }

  lemma NamesAreNotMessages()
    ensures "messages" !in HEAD && "messages" !in LATE && "message" !in HEAD && "message" !in LATE
  {
    assert |"message"| == 7 && |"messages"| == 8;
    forall i | 0 <= i < |HEAD| ensures HEAD[i] != "messages" && HEAD[i] != "message" {
      assert |HEAD[i]| != 7 && (|HEAD[i]| != 8 || HEAD[i][0] != 'm');
    }
    forall i | 0 <= i < |LATE| ensures LATE[i] != "messages" && LATE[i] != "message" {
      assert |LATE[i]| != 7 && |LATE[i]| != 8;
    }
  }

  lemma HeadIsNotLate()
    ensures forall name | name in LATE :: name !in HEAD
  {
    forall i, j | 0 <= i < |HEAD| && 0 <= j < |LATE| ensures HEAD[i] != LATE[j] {
      assert HEAD[i][0] != LATE[j][0];
    }
  }

  /** A request whose tail is empty grows by appending. */
  lemma GrowthAppends(fields: seq<Field>, kind: string, more: seq<string>, json: string)
    requires HasMessages(fields) && Tail(fields) == []
    ensures Canonical(fields, kind) <= Canonical(Grown(fields, more, json), kind)
  {
    SplitText(fields, kind);
    GrownText(fields, kind, more, json);
    assert Text(Tail(fields)) == "";
  }

  /** No tail line can be taken for a message line. */
  predicate PlainTail(fields: seq<Field>) {
    forall i | 0 <= i < |Tail(fields)| :: ':' !in Tail(fields)[i].key && Tail(fields)[i].key != "message"
  }

  lemma LinesDiffer(e: Entry, after: string, message: string, beyond: string)
    requires ':' !in e.key && e.key != "message"
    ensures !("\n" + Line(e) + after <= "\n" + Line(Entry("message", message)) + beyond)
  {
    var a, b, k := "\n" + Line(e) + after, "\n" + Line(Entry("message", message)) + beyond, |e.key|;
    assert a[k + 1] == ':' && b[8] == ':';
    assert forall i | 0 <= i < k :: a[i + 1] == e.key[i];
    assert forall i | 0 <= i < 7 :: b[i + 1] == "message"[i];
    if k < 7 {
      assert "message"[k] != ':' && a[k + 1] != b[k + 1];
    } else if k > 7 {
      assert a[8] == e.key[7];
    } else {
      var i :| 0 <= i < 7 && e.key[i] != "message"[i];
      assert a[i + 1] != b[i + 1];
    }
  }

  lemma PrefixAfter(common: string, a: string, b: string)
    ensures common + a <= common + b <==> a <= b
  {
    if common + a <= common + b {
      forall i | 0 <= i < |a| ensures a[i] == b[i] {
        assert (common + a)[|common| + i] == (common + b)[|common| + i];
      }
    }
  }

  lemma TailDiffers(tail: seq<Entry>, more: seq<string>)
    requires tail != [] && more != [] && ':' !in tail[0].key && tail[0].key != "message"
    ensures !(Text(tail) <= Text(Turns(more)) + Text(tail))
  {
    var beyond := Text(Turns(more[1..])) + Text(tail);
    assert Turns(more)[1..] == Turns(more[1..]);
    Regroup("\n" + Line(Entry("message", more[0])), Text(Turns(more[1..])), Text(tail));
    LinesDiffer(tail[0], Text(tail[1..]), more[0], beyond);
  }

  /** Growing keeps the old text as a prefix exactly when nothing follows the messages, as
      long as no tail field looks like a message line. */
  lemma GrowthAppendsIff(fields: seq<Field>, kind: string, more: seq<string>, json: string)
    requires HasMessages(fields) && more != [] && PlainTail(fields)
    ensures Canonical(fields, kind) <= Canonical(Grown(fields, more, json), kind) <==> Tail(fields) == []
  {
    if Tail(fields) == [] {
      GrowthAppends(fields, kind, more, json);
    } else {
      SplitText(fields, kind);
      GrownText(fields, kind, more, json);
      TailDiffers(Tail(fields), more);
      PrefixAfter(Upto(fields, kind), Text(Tail(fields)), Text(Turns(more)) + Text(Tail(fields)));
    }
  }

  // ---- which requests the text tells apart ------------------------------------------

  /** Two ways to cut the same sequence before its first element outside `p` are one. */
  lemma CutsAlike<T>(x: seq<T>, u: seq<T>, y: seq<T>, v: seq<T>, p: T -> bool)
    requires x + u == y + v
    requires (forall i | 0 <= i < |x| :: p(x[i])) && (forall i | 0 <= i < |y| :: p(y[i]))
    requires (u == [] || !p(u[0])) && (v == [] || !p(v[0]))
    ensures x == y && u == v
  {
    var s := x + u;
    assert |x| < |s| ==> s[|x|] == u[0];
    assert |y| < |s| ==> s[|y|] == v[0];
    assert forall k | 0 <= k < |x| :: s[k] == x[k];
    assert forall k | 0 <= k < |y| :: s[k] == y[k];
    assert |x| == |y|;
    assert x == s[..|x|] == y && u == s[|x|..] == v;
  }

  /** JSON, and no line feed in it or in the name. */
  predicate Clean(e: Entry) { JsonText.IsJson(e.json) && '\n' !in e.key && '\n' !in e.json }

  predicate AllClean(es: seq<Entry>) { forall i | 0 <= i < |es| :: Clean(es[i]) }

  lemma LineInjective(d: Entry, e: Entry)
    requires Clean(d) && Clean(e) && Line(d) == Line(e)
    ensures d == e
  {
    JsonText.OneCut(d.key, d.json, e.key, e.json);
  }

  lemma LineHasNoBreak(e: Entry)
    requires Clean(e)
    ensures '\n' !in Line(e)
  {
  }

  lemma {:induction false} TextInjective(a: seq<Entry>, b: seq<Entry>)
    requires AllClean(a) && AllClean(b) && Text(a) == Text(b)
    ensures a == b
    decreases |a|
  {
    if a != [] && b != [] {
      var x, y, u, v := Line(a[0]), Line(b[0]), Text(a[1..]), Text(b[1..]);
      Regroup("\n", x, u);
      Regroup("\n", y, v);
      assert x + u == ("\n" + (x + u))[1..] && y + v == ("\n" + (y + v))[1..];
      LineHasNoBreak(a[0]);
      LineHasNoBreak(b[0]);
      CutsAlike(x, u, y, v, c => c != '\n');
      LineInjective(a[0], b[0]);
      TextInjective(a[1..], b[1..]);
      assert a == [a[0]] + a[1..] && b == [b[0]] + b[1..];
    }
  }

  ghost predicate Readable(c: Content) { '\n' !in c.kind && AllClean(Entries(c)) }

  lemma SameTextSameEntries(fields: seq<Field>, kind: string, others: seq<Field>, kind': string)
    requires Readable(Said(fields, kind)) && Readable(Said(others, kind'))
    ensures Canonical(fields, kind) == Canonical(others, kind') <==>
      Kind(kind) == Kind(kind') && Entries(Said(fields, kind)) == Entries(Said(others, kind'))
  {
    var a, b := Entries(Said(fields, kind)), Entries(Said(others, kind'));
    CanonicalText(fields, kind);
    CanonicalText(others, kind');
    if Canonical(fields, kind) == Canonical(others, kind') {
      var x, y := Kind(kind) + Text(a), Kind(kind') + Text(b);
      assert x == ("kv1\n" + x)[4..] && y == ("kv1\n" + y)[4..];
      CutsAlike(Kind(kind), Text(a), Kind(kind'), Text(b), c => c != '\n');
      TextInjective(a, b);
    }
  }

  /** Keys are distinct, as in any dictionary. */
  predicate DistinctKeys(fields: seq<Field>) {
    fields == [] || (Find(fields[1..], fields[0].key) == None && DistinctKeys(fields[1..]))
  }

  /** The shape every request has. */
  ghost predicate Shaped(c: Content) {
    && (forall i | 0 <= i < |c.head| :: c.head[i].key in HEAD)
    && (IsList(c.messages) || (|c.messages| == 1 && c.messages[0].key == "messages"))
    && (forall i | 0 <= i < |c.late| :: c.late[i].key in LATE)
    && (forall i | 0 <= i < |c.rest| :: Remaining(c.rest[i].key))
    && (forall i | 1 <= i < |c.rest| :: c.rest[i].key != c.rest[0].key)
  }

  predicate IsList(messages: seq<Entry>) { forall i | 0 <= i < |messages| :: messages[i].key == "message" }

  lemma {:induction false} NamedAreNames(fields: seq<Field>, names: seq<string>)
    ensures forall i | 0 <= i < |Named(fields, names)| :: Named(fields, names)[i].key in names
    decreases |names|
  {
    if names != [] { NamedAreNames(fields, names[1..]); }
  }

  lemma {:induction false} TurnsAreList(items: seq<string>)
    ensures IsList(Turns(items))
    decreases |items|
  {
    if items != [] { TurnsAreList(items[1..]); }
  }

  lemma {:induction false} RestRemains(fields: seq<Field>)
    ensures forall i | 0 <= i < |Rest(fields)| ::
      Remaining(Rest(fields)[i].key) && Find(fields, Rest(fields)[i].key) != None
    decreases |fields|
  {
    if fields != [] { RestRemains(fields[1..]); }
  }

  lemma {:induction false} RestIsDistinct(fields: seq<Field>)
    requires DistinctKeys(fields)
    ensures forall i | 1 <= i < |Rest(fields)| :: Rest(fields)[i].key != Rest(fields)[0].key
    decreases |fields|
  {
    if fields != [] {
      RestRemains(fields[1..]);
      RestIsDistinct(fields[1..]);
      if Remaining(fields[0].key) {
        forall i | 1 <= i < |Rest(fields)| ensures Rest(fields)[i].key != fields[0].key {
          assert Rest(fields)[i] == Rest(fields[1..])[i - 1];
        }
      }
    }
  }

  lemma SaidIsShaped(fields: seq<Field>, kind: string)
    requires DistinctKeys(fields)
    ensures Shaped(Said(fields, kind))
  {
    NamedAreNames(fields, HEAD);
    NamedAreNames(fields, LATE);
    RestRemains(fields);
    RestIsDistinct(fields);
    var m := Find(fields, "messages");
    if m.Some? && m.value.items.Some? { TurnsAreList(m.value.items.value); }
  }

  lemma TailStarts(c: Content)
    requires Shaped(c) && TailOf(c) != []
    ensures TailOf(c)[0].key !in HEAD && TailOf(c)[0].key != "messages"
    ensures c.late != [] ==> TailOf(c)[0].key in LATE && TailOf(c)[0].key != "message"
  {
    NamesAreNotMessages();
    HeadIsNotLate();
    if c.late == [] { assert TailOf(c)[0] == c.rest[0]; } else { assert TailOf(c)[0] == c.late[0]; }
  }

  lemma SameHead(c: Content, d: Content)
    requires Shaped(c) && Shaped(d) && Entries(c) == Entries(d)
    ensures c.head == d.head && c.messages + TailOf(c) == d.messages + TailOf(d)
  {
    NamesAreNotMessages();
    if TailOf(c) != [] { TailStarts(c); }
    if TailOf(d) != [] { TailStarts(d); }
    Regroup(c.head, c.messages, TailOf(c));
    Regroup(d.head, d.messages, TailOf(d));
    CutsAlike(c.head, c.messages + TailOf(c), d.head, d.messages + TailOf(d), (e: Entry) => e.key in HEAD);
  }

  lemma SameTail(c: Content, d: Content)
    requires Shaped(c) && Shaped(d) && TailOf(c) == TailOf(d)
    ensures c.late == d.late && c.rest == d.rest
  {
    CutsAlike(c.late, c.rest, d.late, d.rest, (e: Entry) => e.key in LATE);
  }

  /** The first line behind the messages reads like one more message. */
  predicate Leads(c: Content) { c.late == [] && c.rest != [] && c.rest[0].key == "message" }

  /** `d` counts the leading "message" field of `c` as its last message. */
  predicate Absorbs(d: Content, c: Content) {
    && Leads(c) && IsList(c.messages) && !Leads(d)
    && d == c.(messages := c.messages + [c.rest[0]], rest := c.rest[1..])
  }

  lemma TailCannotLead(c: Content)
    requires Shaped(c) && !Leads(c) && TailOf(c) != []
    ensures TailOf(c)[0].key != "message"
  {
    TailStarts(c);
    if c.late == [] { assert TailOf(c)[0] == c.rest[0]; }
  }

  /** The lines that read like messages, and the lines behind them. */
  function Read(c: Content): seq<Entry> { if Leads(c) then c.messages + [c.rest[0]] else c.messages }

  function Unread(c: Content): seq<Entry> { if Leads(c) then c.rest[1..] else TailOf(c) }

  lemma ReadSplits(c: Content)
    requires Shaped(c) && IsList(c.messages)
    ensures c.messages + TailOf(c) == Read(c) + Unread(c)
    ensures IsList(Read(c)) && (Unread(c) == [] || Unread(c)[0].key != "message")
  {
    if Leads(c) {
      assert TailOf(c) == [c.rest[0]] + c.rest[1..];
      Regroup(c.messages, [c.rest[0]], c.rest[1..]);
    } else if TailOf(c) != [] {
      TailCannotLead(c);
    }
  }

  lemma SameRead(c: Content, d: Content)
    requires Shaped(c) && Shaped(d) && IsList(c.messages) && IsList(d.messages)
    requires c.messages + TailOf(c) == d.messages + TailOf(d)
    ensures Read(c) == Read(d) && Unread(c) == Unread(d)
  {
    ReadSplits(c);
    ReadSplits(d);
    CutsAlike(Read(c), Unread(c), Read(d), Unread(d), (e: Entry) => e.key == "message");
  }

  lemma BothLead(c: Content, d: Content)
    requires Shaped(c) && Shaped(d) && Leads(c) && Leads(d) && Read(c) == Read(d) && Unread(c) == Unread(d)
    ensures c.messages == d.messages && c.late == d.late && c.rest == d.rest
  {
    Snoc(c.messages, c.rest[0]);
    Snoc(d.messages, d.rest[0]);
    assert c.rest == [c.rest[0]] + c.rest[1..] && d.rest == [d.rest[0]] + d.rest[1..];
  }

  lemma OneLeads(c: Content, d: Content)
    requires Shaped(c) && Shaped(d) && Leads(c) && !Leads(d) && Read(c) == Read(d) && Unread(c) == Unread(d)
    ensures d.messages == c.messages + [c.rest[0]] && d.late == [] && d.rest == c.rest[1..]
  {
    CutsAlike([], c.rest[1..], d.late, d.rest, (e: Entry) => e.key in LATE);
  }

  lemma SingleLine(c: Content, d: Content)
    requires Shaped(c) && Shaped(d) && !IsList(c.messages) && c.messages + TailOf(c) == d.messages + TailOf(d)
    ensures d.messages == c.messages && TailOf(c) == TailOf(d)
  {
    var s := c.messages + TailOf(c);
    assert s[0].key == "messages" != "message" by { assert |"messages"| != |"message"|; }
    if d.messages == [] {
      assert s == TailOf(d);
      TailStarts(d);
    } else {
      assert s[0] == d.messages[0];
      assert c.messages == s[..1] && TailOf(c) == s[1..] && d.messages == s[..1] && TailOf(d) == s[1..];
    }
  }

  lemma SameEntriesSameContent(c: Content, d: Content)
    requires Shaped(c) && Shaped(d) && c.kind == d.kind && Entries(c) == Entries(d)
    ensures c == d || Absorbs(c, d) || Absorbs(d, c)
  {
    SameHead(c, d);
    if !IsList(c.messages) {
      SingleLine(c, d);
      SameTail(c, d);
    } else if !IsList(d.messages) {
      SingleLine(d, c);
      SameTail(c, d);
    } else {
      SameRead(c, d);
      if Leads(c) && Leads(d) {
        BothLead(c, d);
      } else if Leads(c) {
        OneLeads(c, d);
      } else if Leads(d) {
        OneLeads(d, c);
      } else {
        SameTail(c, d);
      }
    }
  }

  lemma AbsorbedSaysTheSame(d: Content, c: Content)
    requires Absorbs(d, c)
    ensures Entries(d) == Entries(c)
  {
    var e, rest := c.rest[0], c.rest[1..];
    assert TailOf(c) == [e] + rest && TailOf(d) == rest;
    Regroup(c.head, c.messages, [e]);
    Regroup(c.head + c.messages, [e], rest);
  }

  /** Two requests have the same text exactly when they say the same, or one differs from
      the other only in counting a leading field "message" as a message. Absent, null and
      empty message lists say the same. */
  lemma SameTextIff(fields: seq<Field>, kind: string, others: seq<Field>, kind': string)
    requires DistinctKeys(fields) && DistinctKeys(others)
    requires Readable(Said(fields, kind)) && Readable(Said(others, kind'))
    ensures var c, d := Said(fields, kind), Said(others, kind');
      Canonical(fields, kind) == Canonical(others, kind') <==> c == d || Absorbs(c, d) || Absorbs(d, c)
  {
    var c, d := Said(fields, kind), Said(others, kind');
    SaidIsShaped(fields, kind);
    SaidIsShaped(others, kind');
    SameTextSameEntries(fields, kind, others, kind');
    if Canonical(fields, kind) == Canonical(others, kind') { SameEntriesSameContent(c, d); }
    if Absorbs(c, d) { AbsorbedSaysTheSame(c, d); }
    if Absorbs(d, c) { AbsorbedSaysTheSame(d, c); }
  }

  /** Equal texts mean equal requests exactly when both or neither lead their tail with a
      field "message". */
  lemma TextTellsApartIff(fields: seq<Field>, kind: string, others: seq<Field>, kind': string)
    requires DistinctKeys(fields) && DistinctKeys(others)
    requires Readable(Said(fields, kind)) && Readable(Said(others, kind'))
    requires Canonical(fields, kind) == Canonical(others, kind')
    ensures Said(fields, kind) == Said(others, kind') <==> (Leads(Said(fields, kind)) <==> Leads(Said(others, kind')))
  {
    SameTextIff(fields, kind, others, kind');
  }

  lemma OneMessageAndField(kind: string, first: string, second: string, json: string)
    ensures var one := [Field("message", Value(second, None)), Field("messages", Value(json, Some([first])))];
      DistinctKeys(one) &&
        Said(one, kind) == Content(Kind(kind), [], [Entry("message", first)], [], [Entry("message", second)])
  {
    var one := [Field("message", Value(second, None)), Field("messages", Value(json, Some([first])))];
    assert |"message"| == 7 && |"messages"| == 8;
    NamesAreNotMessages();
    MessageIsRemaining();
    OnlyMessages(one, HEAD);
    OnlyMessages(one, LATE);
    assert one[1..] == [one[1]] && one[1..][1..] == [];
    assert Rest([one[1]]) == [] && Find([one[1]], "messages") == Some(one[1].value);
    assert Find(one, "messages") == Some(one[1].value) && Rest(one) == [Entry("message", second)];
    assert [first][1..] == [] && Turns([first]) == [Entry("message", first)];
  }

  lemma TwoMessages(kind: string, first: string, second: string, json: string)
    ensures var two := [Field("messages", Value(json, Some([first, second])))];
      DistinctKeys(two) &&
        Said(two, kind) == Content(Kind(kind), [], [Entry("message", first), Entry("message", second)], [], [])
  {
    var two := [Field("messages", Value(json, Some([first, second])))];
    NamesAreNotMessages();
    MessageIsRemaining();
    OnlyMessages(two, HEAD);
    OnlyMessages(two, LATE);
    assert two[0].key == "messages" && two[1..] == [] && Rest(two) == [];
    assert Find(two, "messages") == Some(two[0].value);
    assert [first, second][1..] == [second] && [second][1..] == [];
    assert Turns([second]) == [Entry("message", second)];
    assert Turns([first, second]) == [Entry("message", first), Entry("message", second)];
  }

  /** Such pairs exist, whatever the values are: the field reads like one more message. */
  lemma MessageFieldCollides(kind: string, first: string, second: string, json: string, json': string)
    ensures
      var one := [Field("message", Value(second, None)), Field("messages", Value(json, Some([first])))];
      var two := [Field("messages", Value(json', Some([first, second])))];
      && DistinctKeys(one) && DistinctKeys(two) && Absorbs(Said(two, kind), Said(one, kind))
      && Canonical(one, kind) == Canonical(two, kind)
  {
    OneMessageAndField(kind, first, second, json);
    TwoMessages(kind, first, second, json');
    var one := [Field("message", Value(second, None)), Field("messages", Value(json, Some([first])))];
    var two := [Field("messages", Value(json', Some([first, second])))];
    assert Said(one, kind).messages + [Said(one, kind).rest[0]] == Said(two, kind).messages;
    AbsorbedSaysTheSame(Said(two, kind), Said(one, kind));
  }

  lemma OnlyRest(fields: seq<Field>, kind: string)
    requires forall i | 0 <= i < |fields| :: Remaining(fields[i].key)
    ensures Said(fields, kind) == Content(Kind(kind), [], [], [], Rest(fields))
  {
    OnlyMessages(fields, HEAD);
    OnlyMessages(fields, LATE);
    NotFound(fields, "messages");
  }

  lemma TextOfOne(e: Entry)
    ensures Text([e]) == "\n" + Line(e)
  {
    assert [e][1..] == [];
    assert "\n" + Line(e) + "" == "\n" + Line(e);
  }

  lemma NameReadsLikeTwo(x: string, y: string, j: string, k: string)
    ensures Text([Entry(x + ":" + j + "\n" + y, k)]) == Text([Entry(x, j)] + [Entry(y, k)])
  {
    var name := x + ":" + j + "\n" + y;
    TextOfOne(Entry(name, k));
    TextOfOne(Entry(x, j));
    TextOfOne(Entry(y, k));
    TextAppend([Entry(x, j)], [Entry(y, k)]);
    var first, second := "\n" + (x + ":" + j), "\n" + (y + ":" + k);
    assert "\n" + (name + ":" + k) == first + second;
  }

  lemma TextOfRest(fields: seq<Field>, kind: string)
    requires forall i | 0 <= i < |fields| :: Remaining(fields[i].key)
    ensures Canonical(fields, kind) == "kv1\n" + (Kind(kind) + Text(Rest(fields)))
  {
    OnlyRest(fields, kind);
    CanonicalText(fields, kind);
    assert Entries(Said(fields, kind)) == Rest(fields);
  }

  /** Names without line feed are needed: one name with a line feed reads like two fields. */
  lemma LineFeedInNameCollides(x: string, y: string, j: string, k: string, kind: string)
    requires Remaining(x) && Remaining(y) && Remaining(x + ":" + j + "\n" + y)
    ensures Canonical([Field(x + ":" + j + "\n" + y, Value(k, None))], kind) ==
      Canonical([Field(x, Value(j, None)), Field(y, Value(k, None))], kind)
  {
    var name := x + ":" + j + "\n" + y;
    var one, two := [Field(name, Value(k, None))], [Field(x, Value(j, None)), Field(y, Value(k, None))];
    assert one[1..] == [] && two[1..] == [two[1]] && [two[1]][1..] == [];
    assert Rest(one) == [Entry(name, k)] && Rest([two[1]]) == [Entry(y, k)];
    assert Rest(two) == [Entry(x, j)] + [Entry(y, k)];
    NameReadsLikeTwo(x, y, j, k);
    TextOfRest(one, kind);
    TextOfRest(two, kind);
  }

  lemma MessageIsRemaining()
    ensures Remaining("message") && !Remaining("messages")
  {
    assert |"message"| == 7;
    NamesAreNotMessages();
    forall s | s in NON_PROMPT ensures s != "message" { assert |s| != 7 || s[0] != 'm'; }
  }

  lemma {:induction false} OnlyMessages(fields: seq<Field>, names: seq<string>)
    requires forall i | 0 <= i < |fields| :: fields[i].key !in names
    ensures Named(fields, names) == []
    decreases |names|
  {
    if names != [] {
      assert names[0] in names && forall name | name in names[1..] :: name in names;
      NotFound(fields, names[0]);
      OnlyMessages(fields, names[1..]);
    }
  }

  lemma {:induction false} NotFound(fields: seq<Field>, key: string)
    requires forall i | 0 <= i < |fields| :: fields[i].key != key
    ensures Find(fields, key) == None
    decreases |fields|
  {
    if fields != [] { NotFound(fields[1..], key); }
  }

  // ---- which fields count -----------------------------------------------------------

  /** The fields the text names on their own are never left out. */
  lemma NamedAreSelected(key: string)
    requires key in HEAD || key in LATE || key == "messages"
    ensures Selected(key)
  {
  }

  lemma {:induction false} FindInserted(before: seq<Field>, f: Field, after: seq<Field>, key: string)
    requires Find(before + after, f.key).None?
    ensures Find(before + ([f] + after), key) == if key == f.key then Some(f.value) else Find(before + after, key)
    decreases |before|
  {
    if before == [] {
      assert before + after == after && before + ([f] + after) == [f] + after && ([f] + after)[1..] == after;
    } else {
      assert (before + after)[1..] == before[1..] + after;
      assert (before + ([f] + after))[1..] == before[1..] + ([f] + after);
      FindInserted(before[1..], f, after, key);
    }
  }

  lemma {:induction false} NamedInserted(before: seq<Field>, f: Field, after: seq<Field>, names: seq<string>)
    requires Find(before + after, f.key).None?
    ensures |Named(before + ([f] + after), names)| >= |Named(before + after, names)|
    ensures if f.key in names then |Named(before + ([f] + after), names)| > |Named(before + after, names)|
            else Named(before + ([f] + after), names) == Named(before + after, names)
    decreases |names|
  {
    if names != [] {
      FindInserted(before, f, after, names[0]);
      NamedInserted(before, f, after, names[1..]);
    }
  }

  lemma {:induction false} RestConcat(a: seq<Field>, b: seq<Field>)
    ensures Rest(a + b) == Rest(a) + Rest(b)
    decreases |a|
  {
    if a == [] {
      assert a + b == b;
    } else {
      assert (a + b)[1..] == a[1..] + b;
      RestConcat(a[1..], b);
    }
  }

  lemma RestInserted(before: seq<Field>, f: Field, after: seq<Field>)
    ensures Rest(before + ([f] + after)) == Rest(before + after) <==> !Remaining(f.key)
  {
    RestConcat(before, [f] + after);
    RestConcat([f], after);
    RestConcat(before, after);
    assert [f][1..] == [];
    if Remaining(f.key) { assert |Rest(before + ([f] + after))| == |Rest(before + after)| + 1; }
  }

  /** One more field leaves what a request says as it was exactly when it is a private one, one
      of the listed fields that do not shape the prompt, or a list of no messages. */
  lemma IgnoredIff(before: seq<Field>, f: Field, after: seq<Field>, kind: string)
    requires Find(before + after, f.key).None?
    ensures Said(before + ([f] + after), kind) == Said(before + after, kind) <==>
      f.key in NON_PROMPT || (f.key != "" && f.key[0] == '_') ||
        (f.key == "messages" && (f.value.items == Some([]) || (f.value.items.None? && f.value.json == "null")))
  {
    NamedInserted(before, f, after, HEAD);
    NamedInserted(before, f, after, LATE);
    FindInserted(before, f, after, "messages");
    RestInserted(before, f, after);
    if f.key in HEAD || f.key in LATE || f.key == "messages" { NamedAreSelected(f.key); }
  }

  // ---- anchors ----------------------------------------------------------------------

  /** Lengths are whole numbers; fractions are reals, so float rounding is not modelled. */
  datatype AnchorPolicy = AnchorPolicy(
    minAnchor: int, maxAnchor: int,
    short: int, medium: int, long: int,
    shortFraction: real, mediumFraction: real, longFraction: real,
    ladder: seq<int>)

  predicate Rising(ladder: seq<int>) {
    (forall i | 0 <= i < |ladder| :: ladder[i] > 0) && forall i, j | 0 <= i < j < |ladder| :: ladder[i] < ladder[j]
  }

  /** What `from_config` guarantees. */
  predicate Sane(p: AnchorPolicy) {
    && 1 <= p.minAnchor <= p.maxAnchor && 1 <= p.short <= p.medium <= p.long
    && 0.0 <= p.shortFraction <= 1.0 && 0.0 <= p.mediumFraction <= 1.0 && 0.0 <= p.longFraction <= 1.0
    && Rising(p.ladder)
  }

  function DefaultPolicy(): AnchorPolicy {
    AnchorPolicy(512, 32768, 10240, 20480, 102400, 0.90, 0.50, 0.10,
                 [256, 512, 1024, 1536, 2048, 2560, 3072, 3584, 4096,
                  6144, 8192, 10240, 12288, 16384, 20480, 24576, 28672, 32768])
  }

  function Ratio(p: AnchorPolicy, total: int): real {
    if total <= p.short then p.shortFraction
    else if total <= p.medium then p.mediumFraction
    else if total <= p.long then
      var progress := (total - p.medium) as real / Max(1, p.long - p.medium) as real;
      p.mediumFraction + (p.longFraction - p.mediumFraction) * progress
    else p.longFraction
  }

  function Clamped(p: AnchorPolicy, total: int, raw: int): int { Min(total, Max(p.minAnchor, Min(p.maxAnchor, raw))) }

  /** The last rung of the ladder that is not above `value`, or `value` below the first. */
  function Rung(ladder: seq<int>, value: int, chosen: int): int
    decreases |ladder|
  {
    if ladder == [] || ladder[0] > value then (if chosen != 0 then chosen else value)
      else Rung(ladder[1..], value, ladder[0])
  }

  function Quantize(p: AnchorPolicy, anchor: int): int { if anchor <= 0 then 0 else Rung(p.ladder, anchor, 0) }

  function Part(total: int, ratio: real): int { (total as real * ratio).Floor }

  function Anchor(p: AnchorPolicy, total: int): int {
    if total <= 0 then 0 else Quantize(p, Clamped(p, total, Part(total, Ratio(p, total))))
  }

  method AnchorBytes(p: AnchorPolicy, totalBytes: int) returns (anchor: int)
    ensures anchor == Anchor(p, totalBytes)
  {
    if totalBytes <= 0 { return 0; }
    var raw := Part(totalBytes, Ratio(p, totalBytes));
    raw := Max(p.minAnchor, Min(p.maxAnchor, raw));
    raw := Min(totalBytes, raw);
    if raw <= 0 { return 0; }
    var rest, chosen := p.ladder, 0;
    while rest != [] && rest[0] <= raw
      invariant Rung(rest, raw, chosen) == Rung(p.ladder, raw, 0)
      decreases |rest|
    {
      chosen, rest := rest[0], rest[1..];
    }
    anchor := if chosen != 0 then chosen else raw;
  }

  lemma {:induction false} RungIsBelow(ladder: seq<int>, value: int, chosen: int)
    requires Rising(ladder) && value > 0 && 0 <= chosen <= value
    ensures 0 < Rung(ladder, value, chosen) <= value
    decreases |ladder|
  {
    if ladder != [] && ladder[0] <= value { RungIsBelow(ladder[1..], value, ladder[0]); }
  }

  lemma QuantizedBounds(p: AnchorPolicy, total: int, raw: int)
    requires Sane(p) && total > 0
    ensures 0 < Quantize(p, Clamped(p, total, raw)) <= total && Quantize(p, Clamped(p, total, raw)) <= p.maxAnchor
  {
    RungIsBelow(p.ladder, Clamped(p, total, raw), 0);
  }

  /** Every anchor is a usable prefix length. */
  lemma AnchorBounds(p: AnchorPolicy, total: int)
    requires Sane(p) && total > 0
    ensures 0 < Anchor(p, total) <= total && Anchor(p, total) <= p.maxAnchor
  {
    QuantizedBounds(p, total, Part(total, Ratio(p, total)));
  }

  /** A rung of the ladder lies above `x` and not above `y`. */
  predicate Separates(ladder: seq<int>, x: int, y: int) { exists i | 0 <= i < |ladder| :: x < ladder[i] <= y }

  predicate BelowLadder(ladder: seq<int>, value: int) { ladder == [] || value < ladder[0] }

  lemma {:induction false} RungKeeps(ladder: seq<int>, value: int, chosen: int)
    requires Rising(ladder) && 0 < chosen <= value && (ladder == [] || chosen < ladder[0])
    ensures chosen <= Rung(ladder, value, chosen)
    ensures chosen < Rung(ladder, value, chosen) <==> !BelowLadder(ladder, value)
    decreases |ladder|
  {
    if ladder != [] && ladder[0] <= value { RungKeeps(ladder[1..], value, ladder[0]); }
  }

  lemma SeparatesTail(ladder: seq<int>, x: int, y: int)
    requires ladder != [] && ladder[0] <= x
    ensures Separates(ladder, x, y) <==> Separates(ladder[1..], x, y)
  {
    if Separates(ladder, x, y) {
      var i :| 0 <= i < |ladder| && x < ladder[i] <= y;
      assert ladder[1..][i - 1] == ladder[i];
    }
    if Separates(ladder[1..], x, y) {
      var i :| 0 <= i < |ladder[1..]| && x < ladder[1..][i] <= y;
      assert ladder[i + 1] == ladder[1..][i];
    }
  }

  /** Once a rung is chosen, the longer length gets a higher one exactly when a rung lies between. */
  lemma {:induction false} RungAboveIff(ladder: seq<int>, x: int, y: int, chosen: int)
    requires Rising(ladder) && 0 < chosen <= x <= y && (ladder == [] || chosen < ladder[0])
    ensures Rung(ladder, x, chosen) <= Rung(ladder, y, chosen)
    ensures Rung(ladder, x, chosen) < Rung(ladder, y, chosen) <==> Separates(ladder, x, y)
    decreases |ladder|
  {
    if ladder != [] {
      if ladder[0] <= x {
        RungAboveIff(ladder[1..], x, y, ladder[0]);
        SeparatesTail(ladder, x, y);
      } else if ladder[0] <= y {
        RungKeeps(ladder[1..], y, ladder[0]);
        assert x < ladder[0] <= y;
      }
    }
  }

  /** Two lengths get different rungs exactly when a rung separates them, or they differ
      below the first rung, where a length stands for itself. */
  lemma RungBelowIff(ladder: seq<int>, x: int, y: int)
    requires Rising(ladder) && 0 < x <= y
    ensures Rung(ladder, x, 0) <= Rung(ladder, y, 0)
    ensures Rung(ladder, x, 0) < Rung(ladder, y, 0) <==> Separates(ladder, x, y) || (x < y && BelowLadder(ladder, y))
  {
    if ladder != [] && ladder[0] <= x {
      RungAboveIff(ladder[1..], x, y, ladder[0]);
      SeparatesTail(ladder, x, y);
    } else if ladder != [] && ladder[0] <= y {
      RungKeeps(ladder[1..], y, ladder[0]);
      assert x < ladder[0] <= y;
    }
  }

  /** The length that is rounded down to the ladder. */
  function Wanted(p: AnchorPolicy, total: int): int { Clamped(p, total, Part(total, Ratio(p, total))) }

  /** An anchor is below another one exactly when a rung lies between the wanted lengths, or
      they differ below the ladder: this is when a longer text gets a shorter anchor. */
  lemma AnchorFallsIff(p: AnchorPolicy, total: int, later: int)
    requires Sane(p) && total > 0 && later > 0
    ensures var x, y := Wanted(p, later), Wanted(p, total);
      Anchor(p, later) < Anchor(p, total) <==> x < y && (Separates(p.ladder, x, y) || BelowLadder(p.ladder, y))
  {
    var x, y := Wanted(p, later), Wanted(p, total);
    if x <= y { RungBelowIff(p.ladder, x, y); } else { RungBelowIff(p.ladder, y, x); }
  }

  /** As long as the fraction does not change, a longer text never has a shorter anchor. */
  lemma AnchorRises(p: AnchorPolicy, total: int, later: int)
    requires Sane(p) && 0 < total <= later && Ratio(p, total) == Ratio(p, later) && Ratio(p, total) >= 0.0
    ensures Anchor(p, total) <= Anchor(p, later)
  {
    var ratio := Ratio(p, total);
    ProductRises(total, later, ratio);
    ClampedRises(p, total, later, Part(total, ratio), Part(later, ratio));
    AnchorFallsIff(p, total, later);
  }

  lemma ProductRises(x: int, y: int, ratio: real)
    requires x <= y && ratio >= 0.0
    ensures Part(x, ratio) <= Part(y, ratio)
  {
    assert (y - x) as real * ratio >= 0.0;
  }

  lemma ClampedRises(p: AnchorPolicy, total: int, later: int, raw: int, raw': int)
    requires Sane(p) && 0 < total <= later && raw <= raw'
    ensures Clamped(p, total, raw) <= Clamped(p, later, raw')
  {
  }

  lemma {:induction false} RungIs(ladder: seq<int>, value: int, chosen: int, i: nat)
    requires Rising(ladder) && i + 1 < |ladder| && ladder[i] <= value < ladder[i + 1]
    ensures Rung(ladder, value, chosen) == ladder[i]
    decreases |ladder|
  {
    if i > 0 { RungIs(ladder[1..], value, ladder[0], i - 1); }
  }

  lemma DefaultRatios()
    ensures var p := DefaultPolicy(); Ratio(p, 10240) == 0.9 && Ratio(p, 10241) == 0.5
    ensures Part(10240, 0.9) == 9216 && Part(10241, 0.5) == 5120
  {
  }

  lemma DefaultIsSane()
    ensures Sane(DefaultPolicy())
  {
  }

  lemma AnchorIs(p: AnchorPolicy, total: int, i: nat)
    requires Sane(p) && total > 0 && i + 1 < |p.ladder| && p.ladder[i] <= Wanted(p, total) < p.ladder[i + 1]
    ensures Anchor(p, total) == p.ladder[i]
  {
    RungIs(p.ladder, Wanted(p, total), 0, i);
  }

  /** Over a change of the fraction it can: one more byte halves the default anchor. */
  lemma AnchorIsNotMonotone()
    ensures Sane(DefaultPolicy()) && Anchor(DefaultPolicy(), 10240) == 8192 && Anchor(DefaultPolicy(), 10241) == 4096
  {
    DefaultRatios();
    DefaultIsSane();
    AnchorIs(DefaultPolicy(), 10240, 10);
    AnchorIs(DefaultPolicy(), 10241, 8);
  }

  lemma InterpolatedRatios()
    ensures var p := DefaultPolicy(); Ratio(p, 61440) == 0.3 && Ratio(p, 102400) == 0.1
    ensures Part(61440, 0.3) == 18432 && Part(102400, 0.1) == 10240
  {
  }

  /** It also falls within the interpolated range, where every length has its own fraction. */
  lemma InterpolatedAnchorFalls()
    ensures Anchor(DefaultPolicy(), 61440) == 16384 && Anchor(DefaultPolicy(), 102400) == 10240
  {
    InterpolatedRatios();
    DefaultIsSane();
    AnchorIs(DefaultPolicy(), 61440, 13);
    AnchorIs(DefaultPolicy(), 102400, 11);
  }
}
