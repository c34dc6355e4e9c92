/** The orchestrator: which messages of the topic are commands, and where a restart resumes. */
module Orchestrator {
  import opened Types

  datatype Category = CommandCategory | OrderCategory | BalanceCategory | TradeCategory

  datatype Header = EventCategory(category: Category) | Symbol(symbol: string) | OtherHeader

  datatype Message = Message(headers: seq<Header>, command: Command)

  /** Whether the last category header says "command". */
  ghost predicate SaysCommand(headers: seq<Header>) {
    if headers == [] then false
    else
      var h := headers[|headers| - 1];
      if h.EventCategory? then h.category.CommandCategory? else SaysCommand(headers[..|headers| - 1])
  }

  /** The last symbol header, if any. */
  ghost function NamedSymbol(headers: seq<Header>): Option<string> {
    if headers == [] then None
    else
      var h := headers[|headers| - 1];
      if h.Symbol? then Some(h.symbol) else NamedSymbol(headers[..|headers| - 1])
  }

  /** A message this engine processes. */
  ghost predicate IsFor(msg: Message, symbol: string) {
    SaysCommand(msg.headers) && NamedSymbol(msg.headers) == Some(symbol)
  }

  /** Header `i` is the last one of its kind. */
  ghost predicate LastCategory(headers: seq<Header>, i: int) {
    0 <= i < |headers| && headers[i].EventCategory? && forall j :: i < j < |headers| ==> !headers[j].EventCategory?
  }

  ghost predicate LastSymbol(headers: seq<Header>, i: int) {
    0 <= i < |headers| && headers[i].Symbol? && forall j :: i < j < |headers| ==> !headers[j].Symbol?
  }

  /** A message is for this engine if its last category is "command" and its last symbol the engine's. */
  lemma {:induction false} LastHeadersDecide(msg: Message, symbol: string)
    ensures IsFor(msg, symbol) <==>
      && (exists i :: LastCategory(msg.headers, i) && msg.headers[i].category.CommandCategory?)
      && (exists i :: LastSymbol(msg.headers, i) && msg.headers[i].symbol == symbol)
  {
    CategoryIsLast(msg.headers);
    SymbolIsLast(msg.headers, symbol);
  }

  lemma {:induction false} CategoryIsLast(headers: seq<Header>)
    ensures SaysCommand(headers) <==>
      exists i :: LastCategory(headers, i) && headers[i].category.CommandCategory?
  {
    if headers != [] {
      var n := |headers| - 1;
      CategoryIsLast(headers[..n]);
      if headers[n].EventCategory? {
        assert LastCategory(headers, n);
        assert forall i :: LastCategory(headers, i) ==> i == n;
      } else {
        assert forall i :: LastCategory(headers, i) <==> LastCategory(headers[..n], i);
      }
    }
  }

  lemma {:induction false} SymbolIsLast(headers: seq<Header>, symbol: string)
    ensures NamedSymbol(headers) == Some(symbol) <==>
      exists i :: LastSymbol(headers, i) && headers[i].symbol == symbol
  {
    if headers != [] {
      var n := |headers| - 1;
      SymbolIsLast(headers[..n], symbol);
      if headers[n].Symbol? {
        assert LastSymbol(headers, n);
        assert forall i :: LastSymbol(headers, i) ==> i == n;
      } else {
        assert forall i :: LastSymbol(headers, i) <==> LastSymbol(headers[..n], i);
      }
    }
  }

  /** `_parse_message`: later headers overwrite earlier ones. */
  method ParseMessage(msg: Message, symbol: string) returns (cmd: Option<Command>)
    ensures cmd == if IsFor(msg, symbol) then Some(msg.command) else None
  {
    var isCommand := false;
    var named: Option<string> := None;
    for i := 0 to |msg.headers|
      invariant isCommand == SaysCommand(msg.headers[..i]) && named == NamedSymbol(msg.headers[..i])
    {
      assert msg.headers[..i + 1][..i] == msg.headers[..i];
      match msg.headers[i]
      case EventCategory(category) => isCommand := category.CommandCategory?;
      case Symbol(s) => named := Some(s);
      case OtherHeader =>
    }
    assert msg.headers[..|msg.headers|] == msg.headers;
    cmd := if !isCommand || named != Some(symbol) then None else Some(msg.command);
  }

  /** The commands for `symbol` in a topic, and the offset of each. */
  ghost function Commands(topic: seq<Message>, symbol: string): seq<Command> {
    if topic == [] then []
    else
      var n := |topic| - 1;
      Commands(topic[..n], symbol) + (if IsFor(topic[n], symbol) then [topic[n].command] else [])
  }

  ghost function Offsets(topic: seq<Message>, symbol: string): (offsets: seq<int>)
    ensures |offsets| == |Commands(topic, symbol)|
  {
    if topic == [] then []
    else
      var n := |topic| - 1;
      Offsets(topic[..n], symbol) + (if IsFor(topic[n], symbol) then [n] else [])
  }

  lemma {:induction false} CommandsConcat(xs: seq<Message>, ys: seq<Message>, symbol: string)
    ensures Commands(xs + ys, symbol) == Commands(xs, symbol) + Commands(ys, symbol)
  {
    if ys == [] {
      assert xs + ys == xs;
    } else {
      var n := |ys| - 1;
      assert (xs + ys)[..|xs + ys| - 1] == xs + ys[..n];
      CommandsConcat(xs, ys[..n], symbol);
    }
  }

  /** Up to and including the offset of command `k` there are exactly the first `k + 1` commands. */
  lemma {:induction false} OffsetOfCommand(topic: seq<Message>, symbol: string, k: nat)
    requires k < |Commands(topic, symbol)|
    ensures var offset := Offsets(topic, symbol)[k];
      0 <= offset < |topic| && Commands(topic[..offset + 1], symbol) == Commands(topic, symbol)[..k + 1]
  {
    var n := |topic| - 1;
    var older := topic[..n];
    if k < |Commands(older, symbol)| {
      OffsetOfCommand(older, symbol, k);
      var offset := Offsets(older, symbol)[k];
      assert older[..offset + 1] == topic[..offset + 1];
    } else {
      assert topic[..n + 1] == topic;
    }
  }

  /** Seeking one past a command's offset resumes with exactly the commands after it. */
  lemma {:induction false} SeekSkipsExactly(topic: seq<Message>, symbol: string, k: nat)
    requires k < |Commands(topic, symbol)|
    ensures var offset := Offsets(topic, symbol)[k];
      0 <= offset < |topic| && Commands(topic[offset + 1..], symbol) == Commands(topic, symbol)[k + 1..]
  {
    OffsetOfCommand(topic, symbol, k);
    var offset := Offsets(topic, symbol)[k];
    CommandsConcat(topic[..offset + 1], topic[offset + 1..], symbol);
    assert topic[..offset + 1] + topic[offset + 1..] == topic;
  }
}
