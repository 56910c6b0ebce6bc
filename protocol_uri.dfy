/**
 * The protocol-URI channel override of binary.go: a URI argument is split on
 * `+` into tokens, each token on `:` into a key and a value, and every
 * `channel:<non-empty>` token overwrites the binary's channel in turn.
 */
module ProtocolUri {
  import opened Errors
  import opened GoStrings

  /** The channel a single `+`-separated token asks for, if it is a well-formed override. */
  function TokenChannel(token: string): Option<string>
  {
    var kv := Split(token, ':');
    if |kv| == 2 && kv[0] == "channel" && kv[1] != "" then Some(kv[1]) else None
  }

  /** The channel after the tokens have been handled in order, starting from `channel`. */
  function ChannelAfter(tokens: seq<string>, channel: string): string
  {
    if tokens == [] then channel
    else
      var before := ChannelAfter(tokens[..|tokens| - 1], channel);
      match TokenChannel(tokens[|tokens| - 1])
      case Some(c) => c
      case None => before
  }

  /** The channel after handling the protocol URI `mime`. */
  function UriChannel(mime: string, channel: string): string
  {
    ChannelAfter(Split(mime, '+'), channel)
  }

  /**
   * A token overrides the channel exactly when it reads `channel:` followed by
   * a non-empty value free of `:`, and the value is then the new channel:
   * `channel:` alone, `channel:a:b`, `foo` and `other:x` change nothing.
   */
  lemma TokenChannelIff(token: string, v: string)
    ensures TokenChannel(token) == Some(v) <==> v != "" && ':' !in v && token == "channel:" + v
  {
    if TokenChannel(token) == Some(v) {
      var kv := Split(token, ':');
      JoinSplit(token, ':');
      SplitPiecesFree(token, ':');
      assert kv[1] == v;
      assert Join(kv, ":") == kv[0] + ":" + Join(kv[1..], ":");
      assert kv[1..] == [v];
    }
    if v != "" && ':' !in v && token == "channel:" + v {
      var kv := ["channel", v];
      assert Join(kv, ":") == "channel:" + v;
      SplitJoin(kv, ':');
    }
  }

  /** A token with no `:` at all never overrides the channel. */
  lemma NoColonNoOverride(token: string)
    requires ':' !in token
    ensures TokenChannel(token) == None
  {
    SplitNoSep(token, ':');
  }

  /** Handling one token list after another is handling their concatenation. */
  lemma {:induction false} ChannelAfterConcat(a: seq<string>, b: seq<string>, channel: string)
    ensures ChannelAfter(a + b, channel) == ChannelAfter(b, ChannelAfter(a, channel))
    decreases |b|
  {
    if b != [] {
      var ab := a + b;
      assert ab[..|ab| - 1] == a + b[..|b| - 1];
      assert ab[|ab| - 1] == b[|b| - 1];
      ChannelAfterConcat(a, b[..|b| - 1], channel);
    } else {
      assert a + b == a;
    }
  }

  /**
   * Last one wins: with no overriding token the channel is unchanged, and
   * otherwise it is the value of the last overriding token.
   */
  lemma {:induction false} LastOverrideWins(tokens: seq<string>, channel: string)
    ensures (forall i :: 0 <= i < |tokens| ==> TokenChannel(tokens[i]).None?) ==> ChannelAfter(tokens, channel) == channel
    ensures forall i :: 0 <= i < |tokens| && TokenChannel(tokens[i]).Some?
                        && (forall j :: i < j < |tokens| ==> TokenChannel(tokens[j]).None?)
                        ==> ChannelAfter(tokens, channel) == TokenChannel(tokens[i]).value
    decreases |tokens|
  {
    if tokens != [] {
      var init := tokens[..|tokens| - 1];
      LastOverrideWins(init, channel);
      assert forall i :: 0 <= i < |init| ==> init[i] == tokens[i];
    }
  }

  /** The resulting channel is the old one or the value of some overriding token. */
  lemma {:induction false} ChannelFromTokens(tokens: seq<string>, channel: string)
    ensures var c := ChannelAfter(tokens, channel);
            c == channel || exists i :: 0 <= i < |tokens| && TokenChannel(tokens[i]) == Some(c)
    decreases |tokens|
  {
    if tokens != [] {
      var init := tokens[..|tokens| - 1];
      ChannelFromTokens(init, channel);
      var c := ChannelAfter(init, channel);
      if c != channel && TokenChannel(tokens[|tokens| - 1]).None? {
        var i :| 0 <= i < |init| && TokenChannel(init[i]) == Some(c);
        assert tokens[i] == init[i];
      }
    }
  }

  /** The URI `channel:foo` sets the channel to exactly `foo`. */
  lemma SetsChannel(v: string, channel: string)
    requires v != "" && ':' !in v && '+' !in v
    ensures UriChannel("channel:" + v, channel) == v
  {
    SplitNoSep("channel:" + v, '+');
    TokenChannelIff("channel:" + v, v);
    assert [Split("channel:" + v, '+')[0]] == Split("channel:" + v, '+');
  }

  /** The URI `channel:` (an empty value) leaves the channel unchanged. */
  lemma EmptyValueKeepsChannel(channel: string)
    ensures UriChannel("channel:", channel) == channel
  {
    SplitNoSep("channel:", '+');
    assert Split("channel:", '+')[..0] == [];
    assert Join(["channel", ""], ":") == "channel:";
    SplitJoin(["channel", ""], ':');
    assert TokenChannel("channel:") == None;
    var ts := Split("channel:", '+');
    assert ts == ["channel:"];
    assert ChannelAfter(ts, channel) == ChannelAfter(ts[..0], channel);
  }

  /** In a URI `u1+u2` the overrides of `u2` are applied after those of `u1`. */
  lemma LaterPartWins(u1: string, u2: string, channel: string)
    ensures UriChannel(u1 + "+" + u2, channel) == UriChannel(u2, UriChannel(u1, channel))
  {
    SplitConcat(u1, u2, '+');
    ChannelAfterConcat(Split(u1, '+'), Split(u2, '+'), channel);
  }
}
