/** Commands as strings, and what applying them does to a replica's store
    (hw3/server/main.go and hw3/internal/store/store.go). */
module KvCodec {
  import opened RaftNode

  type Store = map<string, string>

  const SEPARATOR := ':'
  const PUT := "put"

  function EncodeCommand(key: string, value: string): string {
    PUT + [SEPARATOR] + (key + [SEPARATOR] + value)
  }

  function IndexOf(s: string, c: char): (i: nat)
    ensures i <= |s|
    ensures i < |s| ==> s[i] == c
    ensures c !in s[..i]
  {
    if s == [] || s[0] == c then 0
    else
      var i := 1 + IndexOf(s[1..], c);
      assert s[..i] == [s[0]] + s[1..][..i - 1];
      i
  }

  /** At most n pieces, cut at the first n - 1 separators. */
  function SplitN(s: string, c: char, n: nat): (parts: seq<string>)
    requires n > 0
    ensures 1 <= |parts| <= n
    decreases n
  {
    var i := IndexOf(s, c);
    if n == 1 || i == |s| then [s] else [s[..i]] + SplitN(s[i + 1..], c, n - 1)
  }

  function DecodeCommand(command: string): (string, string, string) {
    var parts := SplitN(command, SEPARATOR, 3);
    if |parts| < 2 then ("", "", "")
    else if |parts| == 3 then (parts[0], parts[1], parts[2])
    else (parts[0], parts[1], "")
  }

  // ---- the codec -------------------------------------------------------------

  lemma {:induction false} FirstIndex(a: string, c: char, b: string)
    requires c !in a
    ensures IndexOf(a + [c] + b, c) == |a|
  {
    var s := a + [c] + b;
    if a != [] {
      assert s[1..] == a[1..] + [c] + b;
      FirstIndex(a[1..], c, b);
    }
  }

  lemma SplitFirst(a: string, c: char, b: string, n: nat)
    requires c !in a && n > 1
    ensures SplitN(a + [c] + b, c, n) == [a] + SplitN(b, c, n - 1)
  {
    var s := a + [c] + b;
    FirstIndex(a, c, b);
    assert s[..|a|] == a && s[|a| + 1..] == b;
  }

  lemma DecodeTwoSeparators(head: string, tail: string, rest: string)
    requires SEPARATOR !in head && rest == head + [SEPARATOR] + tail
    ensures DecodeCommand(PUT + [SEPARATOR] + rest) == (PUT, head, tail)
  {
    SplitFirst(PUT, SEPARATOR, rest, 3);
    SplitFirst(head, SEPARATOR, tail, 2);
  }

  lemma CutAtSeparator(key: string, value: string, k: nat)
    requires k < |key| && key[k] == SEPARATOR
    ensures key + [SEPARATOR] + value == key[..k] + [SEPARATOR] + (key[k + 1..] + [SEPARATOR] + value)
  {
  }

  /** A command decodes to the part of the key before its first separator, and the
      rest of the key and the value together. */
  lemma DecodeEncode(key: string, value: string)
    ensures SEPARATOR !in key ==> DecodeCommand(EncodeCommand(key, value)) == (PUT, key, value)
    ensures forall k :: 0 <= k < |key| && key[k] == SEPARATOR && SEPARATOR !in key[..k] ==>
              DecodeCommand(EncodeCommand(key, value)) == (PUT, key[..k], key[k + 1..] + [SEPARATOR] + value)
  {
    if SEPARATOR !in key {
      DecodeTwoSeparators(key, value, key + [SEPARATOR] + value);
    }
    forall k | 0 <= k < |key| && key[k] == SEPARATOR && SEPARATOR !in key[..k]
      ensures DecodeCommand(EncodeCommand(key, value)) == (PUT, key[..k], key[k + 1..] + [SEPARATOR] + value)
    {
      CutAtSeparator(key, value, k);
      DecodeTwoSeparators(key[..k], key[k + 1..] + [SEPARATOR] + value, key + [SEPARATOR] + value);
    }
  }

  /** A put survives the trip through the log, for any value, exactly when its key
      has no separator in it. */
  lemma RoundTripIff(key: string, value: string)
    ensures DecodeCommand(EncodeCommand(key, value)) == (PUT, key, value) <==> SEPARATOR !in key
  {
    DecodeEncode(key, value);
    var k := IndexOf(key, SEPARATOR);
    assert key[..|key|] == key;
    assert |key[..k]| == k;
  }

  /** What every string decodes to: the operation is what precedes the first separator,
      the key goes up to the second, and all the rest is the value; without any
      separator, nothing. */
  lemma DecodeIsExact(op: string, key: string, value: string)
    requires SEPARATOR !in op
    ensures DecodeCommand(op) == ("", "", "")
    ensures SEPARATOR !in key ==> DecodeCommand(op + [SEPARATOR] + key) == (op, key, "")
    ensures SEPARATOR !in key ==>
              DecodeCommand(op + [SEPARATOR] + (key + [SEPARATOR] + value)) == (op, key, value)
  {
    NoSeparatorSplit(op, 3);
    if SEPARATOR !in key {
      SplitFirst(op, SEPARATOR, key, 3);
      NoSeparatorSplit(key, 2);
      SplitFirst(op, SEPARATOR, key + [SEPARATOR] + value, 3);
      SplitFirst(key, SEPARATOR, value, 2);
    }
  }

  lemma NoSeparatorSplit(s: string, n: nat)
    requires SEPARATOR !in s && n > 0
    ensures SplitN(s, SEPARATOR, n) == [s]
  {
    assert IndexOf(s, SEPARATOR) == |s|;
  }

  /** Without that, two different puts can be the same command. */
  lemma EncodingCanCollide()
    ensures EncodeCommand("a:b", "c") == EncodeCommand("a", "b:c")
    ensures DecodeCommand(EncodeCommand("a:b", "c")) == (PUT, "a", "b:c")
  {
    assert "a:b" + [SEPARATOR] + "c" == "a" + [SEPARATOR] + "b:c";
    RoundTripIff("a", "b:c");
  }

  lemma NoopDecodes()
    ensures DecodeCommand(NOOP) == ("", "", "")
  {
    assert SEPARATOR !in NOOP;
    assert IndexOf(NOOP, SEPARATOR) == |NOOP|;
  }

  // ---- applying commands --------------------------------------------------------

  function ApplyCommand(st: Store, command: string): Store {
    var (op, key, value) := DecodeCommand(command);
    if op == PUT then st[key := value] else st
  }

  /** A command writes exactly if its operation is "put", and then one key. */
  lemma ApplyIff(st: Store, command: string)
    ensures DecodeCommand(command).0 != "put" ==> ApplyCommand(st, command) == st
    ensures DecodeCommand(command).0 == "put" ==>
              && DecodeCommand(command).1 in ApplyCommand(st, command)
              && ApplyCommand(st, command)[DecodeCommand(command).1] == DecodeCommand(command).2
              && ApplyCommand(st, command) - {DecodeCommand(command).1} == st - {DecodeCommand(command).1}
  {
  }

  /** The store after the first messages of a stream. */
  function StoreAfter(msgs: seq<ApplyMsg>): Store {
    if msgs == [] then map[]
    else ApplyCommand(StoreAfter(msgs[..|msgs| - 1]), msgs[|msgs| - 1].command)
  }

  lemma StoreAfterOneMore(msgs: seq<ApplyMsg>, msg: ApplyMsg)
    ensures StoreAfter(msgs + [msg]) == ApplyCommand(StoreAfter(msgs), msg.command)
  {
    assert (msgs + [msg])[..|msgs|] == msgs;
  }

  /** A put without separator in its key writes that value under that key and
      nothing else; the leader's own entry writes nothing. */
  lemma ApplyPut(st: Store, key: string, value: string)
    requires SEPARATOR !in key
    ensures ApplyCommand(st, EncodeCommand(key, value)) == st[key := value]
    ensures ApplyCommand(st, NOOP) == st
  {
    RoundTripIff(key, value);
    NoopDecodes();
  }
}
