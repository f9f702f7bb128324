/**
 * The input message topic `<deviceId>/<messageType>`, as the input handler
 * takes it apart with JavaScript's `String.prototype.split("/")`.
 */
module Topic {
  import opened Wrappers

  /** The number of '/' characters in `s`. */
  function SlashCount(s: string): nat
  {
    if s == [] then 0 else (if s[0] == '/' then 1 else 0) + SlashCount(s[1..])
  }

  /**
   * `s.split("/")`: the maximal '/'-free pieces of `s`, in order, including
   * the empty pieces before a leading, after a trailing and between two
   * adjacent separators.
   */
  function Split(s: string): (tokens: seq<string>)
    ensures |tokens| >= 1
  {
    if s == [] then [""]
    else
      var rest := Split(s[1..]);
      if s[0] == '/' then [""] + rest
      else [[s[0]] + rest[0]] + rest[1..]
  }

  /** `tokens.join("/")`, the inverse of `Split`. */
  function Join(tokens: seq<string>): string
    requires |tokens| >= 1
  {
    if |tokens| == 1 then tokens[0] else tokens[0] + "/" + Join(tokens[1..])
  }

  /** There is one more token than there are separators. */
  lemma {:induction false} SplitLength(s: string)
    ensures |Split(s)| == SlashCount(s) + 1
  {
    if s != [] {
      SplitLength(s[1..]);
    }
  }

  /** No token contains the separator. */
  lemma {:induction false} SplitTokensHaveNoSlash(s: string)
    ensures forall i :: 0 <= i < |Split(s)| ==> '/' !in Split(s)[i]
  {
    if s != [] {
      SplitTokensHaveNoSlash(s[1..]);
      var rest := Split(s[1..]);
      if s[0] != '/' {
        assert '/' !in rest[0];
        assert '/' !in [s[0]] + rest[0];
      }
    }
  }

  /** Joining the tokens with '/' gives back the topic: splitting loses nothing. */
  lemma {:induction false} JoinSplit(s: string)
    ensures Join(Split(s)) == s
  {
    if s != [] {
      JoinSplit(s[1..]);
      var rest := Split(s[1..]);
      if s[0] == '/' {
        assert Split(s) == [""] + rest;
        assert Split(s)[1..] == rest;
        assert s == [s[0]] + s[1..];
      } else {
        var t := [[s[0]] + rest[0]] + rest[1..];
        assert Split(s) == t;
        if |rest| == 1 {
          assert s == [s[0]] + s[1..];
        } else {
          assert t[1..] == rest[1..];
          assert Join(rest) == rest[0] + "/" + Join(rest[1..]);
          assert s == [s[0]] + s[1..];
        }
      }
    }
  }

  /** Splitting a '/'-free prefix onto `s` only extends the first token of `s`. */
  lemma {:induction false} SplitFreePrefix(a: string, s: string)
    requires '/' !in a
    ensures Split(a + s) == [a + Split(s)[0]] + Split(s)[1..]
  {
    var t := Split(s);
    if a == [] {
      assert a + s == s;
      assert a + t[0] == t[0];
      assert [t[0]] + t[1..] == t;
    } else {
      SplitFreePrefix(a[1..], s);
      assert (a + s)[1..] == a[1..] + s;
      assert (a + s)[0] == a[0];
      var rest := Split(a[1..] + s);
      assert rest == [a[1..] + t[0]] + t[1..];
      assert rest[1..] == t[1..];
      assert [a[0]] + (a[1..] + t[0]) == a + t[0];
    }
  }

  /** The two parts of a well-formed topic. */
  datatype TopicParts = TopicParts(deviceId: string, messageType: string)

  /**
   * The topic check of the input handler: a topic is accepted exactly when it
   * splits into two tokens, that is when it holds exactly one '/', and then
   * its parts are the text before and after that '/'.
   */
  function ParseTopic(topic: string): (r: Option<TopicParts>)
    ensures r.Some? <==> SlashCount(topic) == 1
    ensures r.Some? ==> topic == r.value.deviceId + "/" + r.value.messageType
    ensures r.Some? ==> '/' !in r.value.deviceId && '/' !in r.value.messageType
  {
    SplitLength(topic);
    SplitTokensHaveNoSlash(topic);
    JoinSplit(topic);
    var tokens := Split(topic);
    if |tokens| == 2 then
      assert Join(tokens[1..]) == tokens[1];
      Some(TopicParts(tokens[0], tokens[1]))
    else None
  }

  /** Every '/'-free device id and message type make a topic that parses back to them. */
  lemma ParseTopicOfParts(deviceId: string, messageType: string)
    requires '/' !in deviceId && '/' !in messageType
    ensures ParseTopic(deviceId + "/" + messageType) == Some(TopicParts(deviceId, messageType))
  {
    SplitFreePrefix(messageType, "");
    assert messageType + "" == messageType;
    assert Split(messageType) == [messageType];
    var tail := "/" + messageType;
    assert tail[1..] == messageType;
    assert Split(tail) == [""] + Split(messageType);
    SplitFreePrefix(deviceId, tail);
    assert deviceId + "/" + messageType == deviceId + tail;
    assert Split(tail)[0] == "" && Split(tail)[1..] == [messageType];
    assert deviceId + "" == deviceId;
    assert Split(deviceId + tail) == [deviceId, messageType];
  }
}
