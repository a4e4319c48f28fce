/** The message layer shared by both transports: splitting received text into
    newline-terminated records (`str.partition('\n')` in a loop), classifying
    one deserialized record (`parse`), and building an outgoing record
    (`serialize(type=type, **kwargs)`). */
module Framing {
  import opened Values
  import opened Callbacks

  const NL: char := '\n'

  /** The index of the first `c` in `s`. */
  function FirstIndex(s: string, c: char): (i: nat)
    requires c in s
    ensures i < |s| && s[i] == c && c !in s[..i]
  {
    if s[0] == c then 0
    else
      assert s[1..][..FirstIndex(s[1..], c)] == s[1..1 + FirstIndex(s[1..], c)];
      1 + FirstIndex(s[1..], c)
  }

  /** The complete lines of `data` and the unterminated remainder. */
  function Split(data: string): (seq<string>, string)
    decreases |data|
  {
    if NL !in data then ([], data)
    else
      var i := FirstIndex(data, NL);
      var tail := Split(data[i + 1..]);
      ([data[..i]] + tail.0, tail.1)
  }

  /** Each line re-terminated with a newline, followed by `rest`. */
  function Join(lines: seq<string>, rest: string): string {
    if lines == [] then rest else lines[0] + [NL] + Join(lines[1..], rest)
  }

  predicate NoNewline(lines: seq<string>) {
    forall k :: 0 <= k < |lines| ==> NL !in lines[k]
  }

  /** Splitting loses no character: the lines, each re-terminated, followed by
      the remainder, are the input. */
  lemma {:induction false} SplitJoin(data: string)
    ensures Join(Split(data).0, Split(data).1) == data
    decreases |data|
  {
    if NL in data {
      var i := FirstIndex(data, NL);
      SplitJoin(data[i + 1..]);
      assert data == data[..i] + [NL] + data[i + 1..];
    }
  }

  /** Neither a line nor the remainder holds a newline. */
  lemma {:induction false} SplitClean(data: string)
    ensures NoNewline(Split(data).0) && NL !in Split(data).1
    decreases |data|
  {
    if NL in data {
      SplitClean(data[FirstIndex(data, NL) + 1..]);
    }
  }

  /** The first `c` in `s` is at the index `i` holding `c` with none before it. */
  lemma {:induction false} FirstIndexAt(s: string, c: char, i: nat)
    requires i < |s| && s[i] == c && c !in s[..i]
    ensures FirstIndex(s, c) == i
  {
    if i > 0 {
      assert s[0] == s[..i][0];
      assert s[1..][..i - 1] == s[1..i];
      assert forall k :: 0 <= k < i - 1 ==> s[1..i][k] == s[..i][k + 1];
      FirstIndexAt(s[1..], c, i - 1);
    }
  }

  /** Splitting a newline-free line, a newline and more text. */
  lemma SplitCons(l: string, tail: string)
    requires NL !in l
    ensures Split(l + [NL] + tail) == ([l] + Split(tail).0, Split(tail).1)
  {
    var data := l + [NL] + tail;
    assert data[|l|] == NL;
    assert data[..|l|] == l;
    FirstIndexAt(data, NL, |l|);
    assert data[|l| + 1..] == tail;
  }

  /** Split is the only such decomposition: any newline-free lines and
      remainder are recovered from their joined text. */
  lemma {:induction false} SplitUnique(lines: seq<string>, rest: string)
    requires NoNewline(lines) && NL !in rest
    ensures Split(Join(lines, rest)) == (lines, rest)
  {
    if lines != [] {
      assert NoNewline(lines[1..]) by {
        forall k | 0 <= k < |lines| - 1 ensures NL !in lines[1..][k] {
          assert lines[1..][k] == lines[k + 1];
        }
      }
      SplitUnique(lines[1..], rest);
      assert NL !in lines[0];
      SplitCons(lines[0], Join(lines[1..], rest));
      assert [lines[0]] + lines[1..] == lines;
    }
  }

  /** Text after the remainder extends the remainder. */
  lemma {:induction false} JoinExtend(lines: seq<string>, rest: string, more: string)
    ensures Join(lines, rest) + more == Join(lines, rest + more)
  {
    if lines != [] {
      JoinExtend(lines[1..], rest, more);
    }
  }

  /** Joining in two steps is joining the concatenated lines. */
  lemma {:induction false} JoinConcat(xs: seq<string>, ys: seq<string>, rest: string)
    ensures Join(xs, Join(ys, rest)) == Join(xs + ys, rest)
  {
    if xs == [] {
      assert xs + ys == ys;
    } else {
      JoinConcat(xs[1..], ys, rest);
      assert (xs + ys)[0] == xs[0] && (xs + ys)[1..] == xs[1..] + ys;
    }
  }

  lemma NoNewlineConcat(xs: seq<string>, ys: seq<string>)
    requires NoNewline(xs) && NoNewline(ys)
    ensures NoNewline(xs + ys)
  {
    forall k | 0 <= k < |xs + ys| ensures NL !in (xs + ys)[k] {
      if k >= |xs| {
        assert (xs + ys)[k] == ys[k - |xs|];
      }
    }
  }

  /** Carrying the remainder of one read into the next splits the stream as
      if both reads had arrived at once: the same lines, in stream order, and
      the same remainder. */
  lemma SplitAcrossReads(first: string, second: string)
    ensures var (l1, r1) := Split(first);
            var (l2, r2) := Split(r1 + second);
            l1 + l2 == Split(first + second).0 && r2 == Split(first + second).1
  {
    var (l1, r1) := Split(first);
    var (l2, r2) := Split(r1 + second);
    SplitJoin(first);
    SplitClean(first);
    SplitJoin(r1 + second);
    SplitClean(r1 + second);
    JoinExtend(l1, r1, second);
    JoinConcat(l1, l2, r2);
    NoNewlineConcat(l1, l2);
    SplitUnique(l1 + l2, r2);
  }

  /** Three newline-separated pieces give two lines; the third is kept as
      the remainder until its newline arrives. */
  lemma SplitExampleThree()
    ensures Split("a\nb\nc") == (["a", "b"], "c")
  {
    assert ["a", "b"][1..] == ["b"];
    assert Join(["b"], "c") == "b\nc";
    assert Join(["a", "b"], "c") == "a\nb\nc";
    assert NoNewline(["a", "b"]);
    SplitUnique(["a", "b"], "c");
  }

  /** A line split across two reads arrives whole: `"a\nbc"` then `"d\n"`
      give the lines `a` and `bcd`. */
  lemma SplitExampleTwoReads()
    ensures Split("a\nbc") == (["a"], "bc")
    ensures Split("bc" + "d\n") == (["bcd"], "")
  {
    assert Join(["a"], "bc") == "a\nbc";
    assert NoNewline(["a"]);
    SplitUnique(["a"], "bc");
    assert Join(["bcd"], "") == "bc" + "d\n";
    assert NoNewline(["bcd"]);
    SplitUnique(["bcd"], "");
  }

  /** What `parse` does with one deserialized record.  A record that fails to
      deserialize, or whose `type` is neither `str` nor `unicode` (so that
      `"msg_" + type` is a TypeError), raises out of `parse`. */
  datatype Parsed = Ignored | Dispatched(event: string, fields: Fields) | Raises

  function Classify(obj: Option<Fields>): (p: Parsed)
    ensures p.Ignored? <==> obj.Some? && "type" !in obj.value
    ensures p.Dispatched? <==> obj.Some? && "type" in obj.value && IsText(obj.value["type"])
    ensures p.Dispatched? ==> p.event == "msg_" + Text(obj.value["type"])
                              && p.fields.Keys == obj.value.Keys - {"type"}
                              && forall k :: k in p.fields ==> p.fields[k] == obj.value[k]
  {
    match obj
    case None => Raises
    case Some(o) =>
      if "type" !in o then Ignored
      else if IsText(o["type"]) then Dispatched("msg_" + Text(o["type"]), o - {"type"})
      else Raises
  }

  /** The dispatches made by parsing `lines` in order against `registry`, and
      whether a line raised (which stops the loop). */
  function Deliver(des: string -> Option<Fields>, registry: map<string, seq<Handler>>,
                   lines: seq<string>): (seq<Dispatch>, bool)
  {
    if lines == [] then ([], false)
    else
      match Classify(des(lines[0]))
      case Raises => ([], true)
      case Ignored => Deliver(des, registry, lines[1..])
      case Dispatched(e, f) =>
        var rest := Deliver(des, registry, lines[1..]);
        ([Dispatch(e, f, HandlersIn(registry, e))] + rest.0, rest.1)
  }

  lemma {:induction false} DeliverAppend(des: string -> Option<Fields>,
                                         registry: map<string, seq<Handler>>,
                                         xs: seq<string>, ys: seq<string>)
    requires !Deliver(des, registry, xs).1
    ensures Deliver(des, registry, xs + ys) ==
            (Deliver(des, registry, xs).0 + Deliver(des, registry, ys).0, Deliver(des, registry, ys).1)
  {
    if xs == [] {
      assert xs + ys == ys;
      assert Deliver(des, registry, xs).0 + Deliver(des, registry, ys).0 == Deliver(des, registry, ys).0;
    } else {
      assert (xs + ys)[0] == xs[0];
      assert (xs + ys)[1..] == xs[1..] + ys;
      assert !Classify(des(xs[0])).Raises?;
      DeliverAppend(des, registry, xs[1..], ys);
      match Classify(des(xs[0]))
      case Ignored =>
      case Dispatched(e, f) =>
        assert [Dispatch(e, f, HandlersIn(registry, e))] + Deliver(des, registry, xs[1..]).0
               + Deliver(des, registry, ys).0
               == [Dispatch(e, f, HandlersIn(registry, e))]
               + (Deliver(des, registry, xs[1..]).0 + Deliver(des, registry, ys).0);
    }
  }

  /** After a raising line nothing further is delivered. */
  lemma {:induction false} DeliverStopsAtRaise(des: string -> Option<Fields>,
                                               registry: map<string, seq<Handler>>,
                                               xs: seq<string>, line: string, ys: seq<string>)
    requires !Deliver(des, registry, xs).1 && Classify(des(line)).Raises?
    ensures Deliver(des, registry, xs + [line] + ys) == (Deliver(des, registry, xs).0, true)
  {
    assert xs + [line] + ys == xs + ([line] + ys);
    assert ([line] + ys)[0] == line;
    assert Deliver(des, registry, [line] + ys) == ([], true);
    DeliverAppend(des, registry, xs, [line] + ys);
    assert Deliver(des, registry, xs).0 + [] == Deliver(des, registry, xs).0;
  }

  /** The dispatches one classified record contributes. */
  function Emitted(registry: map<string, seq<Handler>>, p: Parsed): seq<Dispatch> {
    if p.Dispatched? then [Dispatch(p.event, p.fields, HandlersIn(registry, p.event))] else []
  }

  /** Delivering one more line after lines that did not raise adds that
      line's dispatch, and raises exactly when that line does. */
  lemma DeliverSnoc(des: string -> Option<Fields>, registry: map<string, seq<Handler>>,
                    done: seq<string>, line: string)
    requires !Deliver(des, registry, done).1
    ensures var p := Classify(des(line));
            Deliver(des, registry, done + [line]) == (Deliver(des, registry, done).0 + Emitted(registry, p), p.Raises?)
  {
    var p := Classify(des(line));
    assert [line][0] == line && [line][1..] == [];
    if p.Raises? {
      DeliverStopsAtRaise(des, registry, done, line, []);
      assert done + [line] + [] == done + [line];
      assert Deliver(des, registry, done).0 + Emitted(registry, p) == Deliver(des, registry, done).0;
    } else {
      assert Deliver(des, registry, [line]) == (Emitted(registry, p), false) by {
        if p.Dispatched? {
          assert [Dispatch(p.event, p.fields, HandlersIn(registry, p.event))] + [] == Emitted(registry, p);
        }
      }
      DeliverAppend(des, registry, done, [line]);
    }
  }

  /** The record `serialize(type=type, **kwargs)` encodes. */
  function Message(msgType: string, kwargs: Fields): (m: Fields)
    requires "type" !in kwargs
    ensures m.Keys == kwargs.Keys + {"type"} && m["type"] == VStr(msgType)
    ensures forall k :: k in kwargs ==> m[k] == kwargs[k]
  {
    kwargs["type" := VStr(msgType)]
  }

  /** With a deserializer that inverts the serializer, a sent record is
      dispatched as `"msg_" + type` with exactly the sent keyword fields. */
  lemma SentRecordIsDispatched(des: string -> Option<Fields>, ser: Fields -> string,
                               msgType: string, kwargs: Fields)
    requires "type" !in kwargs
    requires des(ser(Message(msgType, kwargs))) == Some(Message(msgType, kwargs))
    ensures Classify(des(ser(Message(msgType, kwargs)))) == Dispatched("msg_" + msgType, kwargs)
  {
    assert Message(msgType, kwargs) - {"type"} == kwargs;
  }
}
