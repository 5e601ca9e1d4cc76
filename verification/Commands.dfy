/** The client's commands, as it writes them. */
module Commands {
  import opened Options
  import opened CStrings

  /** A client's request: a command number, a topic name, and for a publish command a message.  The
      client passes no message with the other commands. */
  datatype Request = Request(kind: char, topic: string, message: Option<string>)

  /** What the client sends, null character included.  A publish command without a message, which
      the client's menu does not make, would have no null character. */
  function Encoded(r: Request): seq<char> {
    if r.kind == '2' then
      "#2#" + r.topic + "#" + if r.message.Some? then r.message.value + [NUL] else []
    else ['#', r.kind, '#'] + r.topic + [NUL]
  }

  method CreatePublishCommand(topicLength: nat, messageLength: int, topic: string, message: Option<string>)
      returns (command: array<char>)
    requires topicLength == |topic| && messageLength == if message.Some? then |message.value| else -1
    ensures fresh(command) && command[..] == Encoded(Request('2', topic, message))
  {
    command := new char[1 + 1 + 1 + topicLength + 1 + messageLength + 1];
    command[0] := '#';
    command[1] := '2';
    command[2] := '#';
    Write(command, 3, topic);
    command[3 + topicLength] := '#';
    if message.Some? {
      Write(command, 3 + topicLength + 1, message.value + [NUL]);
    }
    ghost var tail := if message.Some? then message.value + [NUL] else [];
    assert command[..3] == "#2#" && command[3..3 + topicLength] == topic && command[3 + topicLength..4 + topicLength] == "#";
    assert command[4 + topicLength..] == tail;
    Pieces(command[..], 3, 3 + topicLength, 4 + topicLength);
  }

  lemma Pieces(s: seq<char>, i: nat, j: nat, k: nat)
    requires i <= j <= k <= |s|
    ensures s == s[..i] + s[i..j] + s[j..k] + s[k..]
  {
  }

  method CreateNonpublishCommand(kind: char, topicLength: nat, topic: string) returns (command: array<char>)
    requires topicLength == |topic| && kind != '2'
    ensures fresh(command) && command[..] == Encoded(Request(kind, topic, None))
  {
    command := new char[1 + 1 + 1 + topicLength + 1];
    command[0] := '#';
    command[1] := kind;
    command[2] := '#';
    Write(command, 3, topic + [NUL]);
  }

  method CreateCommand(r: Request) returns (command: array<char>)
    ensures fresh(command) && command[..] == Encoded(r)
  {
    var messageLength := -1;
    if r.message.Some? {
      messageLength := |r.message.value|;
    }
    if r.kind == '2' {
      command := CreatePublishCommand(|r.topic|, messageLength, r.topic, r.message);
    } else {
      command := CreateNonpublishCommand(r.kind, |r.topic|, r.topic);
    }
  }
}
