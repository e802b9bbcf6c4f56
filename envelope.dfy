/**
 * Classification of an inbound envelope `{type, data}` by its `type` string:
 * the exact match on "chatting", the "control" prefix test and the control
 * subtype taken as the second `:`-separated segment.
 */
module Envelope {
  import opened Wrappers

  /** `String.prototype.split` with a one-character separator. */
  function Split(s: string, sep: char): (parts: seq<string>)
    ensures |parts| >= 1
    ensures |parts| == 1 <==> sep !in s
    ensures forall i | 0 <= i < |parts| :: sep !in parts[i]
  {
    if s == [] then [""]
    else
      var rest := Split(s[1..], sep);
      assert s == [s[0]] + s[1..];
      if s[0] == sep then [""] + rest
      else [[s[0]] + rest[0]] + rest[1..]
  }

  /** `Array.prototype.join` with a one-character separator: the inverse of `Split`. */
  function Join(parts: seq<string>, sep: char): string
    requires |parts| >= 1
  {
    if |parts| == 1 then parts[0] else parts[0] + [sep] + Join(parts[1..], sep)
  }

  lemma {:induction false} JoinSplit(s: string, sep: char)
    ensures Join(Split(s, sep), sep) == s
  {
    if s != [] {
      var rest := Split(s[1..], sep);
      JoinSplit(s[1..], sep);
      var parts := Split(s, sep);
      if s[0] == sep {
        assert parts[1..] == rest;
      } else if |rest| > 1 {
        assert parts[1..] == rest[1..];
        assert Join(rest, sep) == rest[0] + [sep] + Join(rest[1..], sep);
      }
    }
  }

  /** A prefix free of the separator is glued onto the first segment of what follows it. */
  lemma {:induction false} SplitPrefix(a: string, t: string, sep: char)
    requires sep !in a
    ensures Split(a + t, sep) == [a + Split(t, sep)[0]] + Split(t, sep)[1..]
  {
    if a == [] {
      assert a + t == t;
      assert a + Split(t, sep)[0] == Split(t, sep)[0];
    } else {
      assert (a + t)[0] == a[0];
      assert (a + t)[1..] == a[1..] + t;
      SplitPrefix(a[1..], t, sep);
      assert [a[0]] + (a[1..] + Split(t, sep)[0]) == a + Split(t, sep)[0];
    }
  }

  lemma {:induction false} SplitJoin(parts: seq<string>, sep: char)
    requires |parts| >= 1
    requires forall i | 0 <= i < |parts| :: sep !in parts[i]
    ensures Split(Join(parts, sep), sep) == parts
  {
    if |parts| == 1 {
      SplitPrefix(parts[0], "", sep);
      assert parts[0] + "" == parts[0];
    } else {
      var tail := Join(parts[1..], sep);
      SplitJoin(parts[1..], sep);
      assert Join(parts, sep) == parts[0] + ([sep] + tail);
      SplitPrefix(parts[0], [sep] + tail, sep);
      assert ([sep] + tail)[1..] == tail;
      assert Split([sep] + tail, sep) == [""] + parts[1..];
      assert parts[0] + "" == parts[0];
    }
  }

  /** `type.split(':')[1]`: the second segment, or `undefined` (None) when there is no `:`. */
  function ControlSubtype(kind: string): (sub: Option<string>)
    ensures sub.Some? <==> ':' in kind
    ensures sub.Some? ==> ':' !in sub.value
  {
    var parts := Split(kind, ':');
    if |parts| > 1 then Some(parts[1]) else None
  }

  /** The subtype is what stands between the first `:` and the next `:` or the end. */
  lemma ControlSubtypeOf(pre: string, sub: string, post: string)
    requires ':' !in pre && ':' !in sub
    requires post == [] || post[0] == ':'
    ensures ControlSubtype(pre + [':'] + sub + post) == Some(sub)
  {
    var kind := pre + [':'] + sub + post;
    assert kind == pre + ([':'] + (sub + post));
    SplitPrefix(pre, [':'] + (sub + post), ':');
    assert ([':'] + (sub + post))[1..] == sub + post;
    SplitPrefix(sub, post, ':');
    assert Split(post, ':')[0] == "";
    assert sub + "" == sub;
  }

  /** Conversely, every subtype found comes from such a decomposition of the type string. */
  lemma ControlSubtypeDecomposes(kind: string) returns (pre: string, post: string)
    requires ControlSubtype(kind).Some?
    ensures kind == pre + [':'] + ControlSubtype(kind).value + post
    ensures ':' !in pre
    ensures post == [] || post[0] == ':'
  {
    var parts := Split(kind, ':');
    JoinSplit(kind, ':');
    pre := parts[0];
    post := if |parts| == 2 then "" else [':'] + Join(parts[2..], ':');
    assert parts[1..][1..] == parts[2..];
    assert Join(parts[1..], ':') == parts[1] + post;
  }

  /** What the per-connection message handler does with an envelope of a given type. */
  datatype Command = Chatting | ChangeNickname | GetMessages | UnknownControl | Ignored

  /**
   * The handler's if/else chain on the type: the exact "chatting" broadcasts, a
   * "control"-prefixed type is dispatched on its second `:`-segment, and any
   * other type is ignored.
   */
  function Classify(kind: string): (r: Command)
    ensures r == Chatting <==> kind == "chatting"
    ensures r == Ignored <==> kind != "chatting" && !("control" <= kind)
    ensures r == ChangeNickname <==> "control" <= kind && ControlSubtype(kind) == Some("CHANGE_NICKNAME")
    ensures r == GetMessages <==> "control" <= kind && ControlSubtype(kind) == Some("GET_MESSAGES")
  {
    if kind == "chatting" then Chatting
    else if "control" <= kind then ControlCommand(ControlSubtype(kind))
    else Ignored
  }

  /** The switch on the control subtype: two recognised names, everything else unknown, `undefined` included. */
  function ControlCommand(controlType: Option<string>): (r: Command)
    ensures r != Chatting && r != Ignored
    ensures r == ChangeNickname <==> controlType == Some("CHANGE_NICKNAME")
    ensures r == GetMessages <==> controlType == Some("GET_MESSAGES")
  {
    if controlType == Some("CHANGE_NICKNAME") then ChangeNickname
    else if controlType == Some("GET_MESSAGES") then GetMessages
    else UnknownControl
  }

  /** A "control"-prefixed type is dispatched on the segment between its first `:` and the next one. */
  lemma ClassifyControl(pre: string, sub: string, post: string)
    requires "control" <= pre && ':' !in pre && ':' !in sub
    requires post == [] || post[0] == ':'
    ensures Classify(pre + [':'] + sub + post) == ControlCommand(Some(sub))
  {
    var kind := pre + [':'] + sub + post;
    ControlSubtypeOf(pre, sub, post);
    assert kind[1] == 'o';
  }

  /** Conversely, every type that renames has that shape with CHANGE_NICKNAME as its second segment. */
  lemma ChangeNicknameShape(kind: string) returns (pre: string, post: string)
    requires Classify(kind) == ChangeNickname
    ensures "control" <= pre && ':' !in pre
    ensures post == [] || post[0] == ':'
    ensures kind == pre + [':'] + "CHANGE_NICKNAME" + post
  {
    pre, post := ControlSubtypeDecomposes(kind);
    assert kind[|pre|] == ':';
    assert forall i | 0 <= i < 7 :: kind[i] == "control"[i] && kind[i] != ':';
    assert pre[..7] == kind[..7] == "control";
  }

  /** The exact "chatting" type broadcasts; a type neither "chatting" nor "control"-prefixed is ignored. */
  lemma ClassifyPlainTypes()
    ensures Classify("chatting") == Chatting
    ensures Classify("control") == UnknownControl
    ensures Classify("typing") == Ignored
    ensures Classify("Control:CHANGE_NICKNAME") == Ignored
  {
  }

  /** The wire type a client sends to rename itself. */
  lemma ClassifyRename()
    ensures Classify("control:CHANGE_NICKNAME") == ChangeNickname
  {
    ClassifyControl("control", "CHANGE_NICKNAME", "");
    assert "control" + [':'] + "CHANGE_NICKNAME" + "" == "control:CHANGE_NICKNAME";
  }

  /** GET_MESSAGES is recognised, and the handler does nothing with it. */
  lemma ClassifyGetMessages()
    ensures Classify("control:GET_MESSAGES") == GetMessages
  {
    ClassifyControl("control", "GET_MESSAGES", "");
    assert "control" + [':'] + "GET_MESSAGES" + "" == "control:GET_MESSAGES";
  }

  /** Only the prefix "control" is tested, so a longer first segment still renames. */
  lemma ClassifyLongerPrefix()
    ensures Classify("controls:CHANGE_NICKNAME:x") == ChangeNickname
  {
    ClassifyControl("controls", "CHANGE_NICKNAME", ":x");
    assert "controls" + [':'] + "CHANGE_NICKNAME" + ":x" == "controls:CHANGE_NICKNAME:x";
  }

  /** With two colons in a row the second segment is empty, so nothing is renamed. */
  lemma ClassifyEmptySegment()
    ensures Classify("control::CHANGE_NICKNAME") == UnknownControl
  {
    ClassifyControl("control", "", ":CHANGE_NICKNAME");
    assert "control" + [':'] + "" + ":CHANGE_NICKNAME" == "control::CHANGE_NICKNAME";
  }

  /** A type without a `:` never changes a nickname: "control" alone and "controlX" are no-ops. */
  lemma NoColonNoNicknameChange(kind: string)
    requires ':' !in kind
    ensures Classify(kind) in {Chatting, UnknownControl, Ignored}
  {
  }
}
