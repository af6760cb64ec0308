/** The messages the context engine lays out, and the additive token estimate of Stage 3. */
module ContextMessages {
  datatype Role = System | User | Assistant | Tool

  datatype Part = Part(text: string, cached: bool)

  datatype Content = NoContent | Text(text: string) | Parts(parts: seq<Part>)

  /** `toolArguments` holds the argument text of each tool call. */
  datatype Message = Message(role: Role, content: Content, toolArguments: seq<string>)

  /** `{ role: t.role, content: t.content || '' }`. */
  function Plain(t: Message): Message {
    Message(t.role, if t.content.NoContent? then Text("") else t.content, [])
  }

  /** The turn's role and content, an absent content as empty text, and nothing of its tool calls. */
  predicate IsPlain(m: Message, t: Message) {
    && m.role == t.role && m.toolArguments == []
    && (t.content.NoContent? ==> m.content == Text("")) && (!t.content.NoContent? ==> m.content == t.content)
  }

  function PlainAll(ts: seq<Message>): (ms: seq<Message>)
    ensures |ms| == |ts| && forall i :: 0 <= i < |ts| ==> IsPlain(ms[i], ts[i]) && ms[i] == Plain(ts[i])
  {
    seq(|ts|, i requires 0 <= i < |ts| => Plain(ts[i]))
  }

  lemma PlainAllSplits(a: seq<Message>, b: seq<Message>)
    ensures PlainAll(a + b) == PlainAll(a) + PlainAll(b)
  {
  }

  // ----- tokens -----

  /** `Math.ceil(length / 3)`. */
  function Cost(s: string): (n: nat)
    ensures |s| <= 3 * n < |s| + 3
  {
    (|s| + 2) / 3
  }

  function PartsCost(ps: seq<Part>): nat
    decreases |ps|
  {
    if ps == [] then 0 else Cost(ps[0].text) + PartsCost(ps[1..])
  }

  function ArgumentsCost(args: seq<string>): nat
    decreases |args|
  {
    if args == [] then 0 else Cost(args[0]) + ArgumentsCost(args[1..])
  }

  function MessageCost(m: Message): nat {
    (match m.content
     case NoContent => 0
     case Text(s) => Cost(s)
     case Parts(ps) => PartsCost(ps)) + ArgumentsCost(m.toolArguments)
  }

  function Tokens(ms: seq<Message>): nat
    decreases |ms|
  {
    if ms == [] then 0 else MessageCost(ms[0]) + Tokens(ms[1..])
  }

  /** The estimate is additive. */
  lemma {:induction false} TokensAdd(a: seq<Message>, b: seq<Message>)
    ensures Tokens(a + b) == Tokens(a) + Tokens(b)
    decreases |a|
  {
    if a == [] {
      assert a + b == b;
    } else {
      assert (a + b)[1..] == a[1..] + b;
      TokensAdd(a[1..], b);
    }
  }

  /** A third of the length, rounded up. */
  predicate ThirdOf(n: nat, s: string) {
    |s| <= 3 * n < |s| + 3
  }

  /** What a message is estimated at, part by part: each text a third of its length, rounded up on its own; a message
      without content nothing; and each further part or tool argument its own text on top. */
  lemma TokensByParts(role: Role, s: string, ps: seq<Part>, p: Part, c: Content, args: seq<string>, a: string)
    ensures Tokens([Message(role, NoContent, [])]) == 0 && Tokens([Message(role, Parts([]), [])]) == 0
    ensures ThirdOf(Tokens([Message(role, Text(s), [])]), s)
    ensures Tokens([Message(role, Parts(ps + [p]), [])])
            == Tokens([Message(role, Parts(ps), [])]) + Tokens([Message(role, Text(p.text), [])])
    ensures Tokens([Message(role, c, args + [a])])
            == Tokens([Message(role, c, args)]) + Tokens([Message(role, Text(a), [])])
  {
    PartsCostSnoc(ps, p);
    ArgumentsCostSnoc(args, a);
    forall m: Message
      ensures Tokens([m]) == MessageCost(m)
    {
      assert [m][1..] == [];
    }
  }

  lemma {:induction false} PartsCostSnoc(ps: seq<Part>, p: Part)
    ensures PartsCost(ps + [p]) == PartsCost(ps) + Cost(p.text)
    decreases |ps|
  {
    if ps == [] {
      assert ps + [p] == [p];
    } else {
      assert (ps + [p])[1..] == ps[1..] + [p];
      PartsCostSnoc(ps[1..], p);
    }
  }

  lemma {:induction false} ArgumentsCostSnoc(args: seq<string>, s: string)
    ensures ArgumentsCost(args + [s]) == ArgumentsCost(args) + Cost(s)
    decreases |args|
  {
    if args == [] {
      assert args + [s] == [s];
    } else {
      assert (args + [s])[1..] == args[1..] + [s];
      ArgumentsCostSnoc(args[1..], s);
    }
  }

  method EstimateConversationTokens(ms: seq<Message>) returns (total: nat)
    ensures total == Tokens(ms)
  {
    total := 0;
    for i := 0 to |ms|
      invariant total == Tokens(ms[..i])
    {
      var m := ms[i];
      assert ms[..i + 1] == ms[..i] + [m];
      TokensAdd(ms[..i], [m]);
      assert Tokens([m]) == MessageCost(m) + Tokens([m][1..]);
      if m.content.Text? {
        total := total + (|m.content.text| + 2) / 3;
      } else if m.content.Parts? {
        total := AddParts(total, m.content.parts);
      }
      total := AddArguments(total, m.toolArguments);
    }
    assert ms[..|ms|] == ms;
  }

  method AddParts(start: nat, ps: seq<Part>) returns (total: nat)
    ensures total == start + PartsCost(ps)
  {
    total := start;
    for i := 0 to |ps|
      invariant total == start + PartsCost(ps[..i])
    {
      assert ps[..i + 1] == ps[..i] + [ps[i]];
      PartsCostSnoc(ps[..i], ps[i]);
      total := total + (|ps[i].text| + 2) / 3;
    }
    assert ps[..|ps|] == ps;
  }

  method AddArguments(start: nat, args: seq<string>) returns (total: nat)
    ensures total == start + ArgumentsCost(args)
  {
    total := start;
    for i := 0 to |args|
      invariant total == start + ArgumentsCost(args[..i])
    {
      assert args[..i + 1] == args[..i] + [args[i]];
      ArgumentsCostSnoc(args[..i], args[i]);
      total := total + (|args[i]| + 2) / 3;
    }
    assert args[..|args|] == args;
  }
}
