/** Phase 3 of the pipeline: the message `send_email` builds for the mail
    relay. The SMTP session, login and UTF-8 encoding are a boundary (a
    failed connection or login means nothing reaches the relay); the
    framing of subject and body into one text is modelled, together with
    the reading that splits the Subject line from the body. */
module Email {
  import opened NewsTypes

  const SubjectPrefix := "Subject: "

  /** The outgoing text: a Subject header line, a blank line, then the body. */
  function FrameMessage(subject: string, body: string): string
  {
    SubjectPrefix + subject + "\n\n" + body
  }

  /** The framed message: `Subject: `, the subject, a blank line, and the
      body to its end. */
  lemma FrameMessageLayout(subject: string, body: string)
    ensures var m := FrameMessage(subject, body);
      var s := |SubjectPrefix| + |subject|;
      && |m| == s + 2 + |body|
      && m[..|SubjectPrefix|] == "Subject: "
      && m[|SubjectPrefix|..s] == subject
      && m[s..s + 2] == "\n\n"
      && m[s + 2..] == body
  {
    var m := FrameMessage(subject, body);
    var s := |SubjectPrefix| + |subject|;
    assert m == SubjectPrefix + subject + "\n\n" + body;
  }

  /** Splits off the first line of `s`; the rest after its newline, or None
      when `s` holds no newline. */
  function SplitLine(s: string): (r: (string, Option<string>))
    ensures '\n' !in r.0
    ensures r.1.None? ==> r.0 == s
    ensures r.1.Some? ==> s == r.0 + "\n" + r.1.value
  {
    if s == [] then ("", None)
    else if s[0] == '\n' then ("", Some(s[1..]))
    else
      var (line, rest) := SplitLine(s[1..]);
      assert s == [s[0]] + s[1..];
      ([s[0]] + line, rest)
  }

  /** The reading that splits the Subject line from the body: the line, then
      the body after the blank line; None if the text is not so shaped. */
  function ParseMessage(m: string): Option<(string, string)>
  {
    if |m| < |SubjectPrefix| || m[..|SubjectPrefix|] != SubjectPrefix then None
    else
      var (line, rest) := SplitLine(m[|SubjectPrefix|..]);
      if rest.Some? && |rest.value| >= 1 && rest.value[0] == '\n' then Some((line, rest.value[1..]))
      else None
  }

  lemma {:induction false} SplitLineAtNewline(line: string, rest: string)
    requires '\n' !in line
    ensures SplitLine(line + "\n" + rest) == (line, Some(rest))
  {
    var s := line + "\n" + rest;
    if line != [] {
      assert s[0] == line[0];
      assert s[1..] == line[1..] + "\n" + rest;
      SplitLineAtNewline(line[1..], rest);
      assert [line[0]] + line[1..] == line;
    }
  }

  /** A subject without a line break survives the framing: the message
      reads back as exactly that subject and body. */
  lemma ParseFramedMessage(subject: string, body: string)
    requires '\n' !in subject
    ensures ParseMessage(FrameMessage(subject, body)) == Some((subject, body))
  {
    var m := FrameMessage(subject, body);
    assert m[..|SubjectPrefix|] == SubjectPrefix;
    assert m[|SubjectPrefix|..] == subject + "\n" + ("\n" + body);
    SplitLineAtNewline(subject, "\n" + body);
  }

  /** Conversely, every message that reads as (subject, body) is the
      framing of that subject and body. */
  lemma FrameParsedMessage(m: string, subject: string, body: string)
    requires ParseMessage(m) == Some((subject, body))
    ensures '\n' !in subject
    ensures FrameMessage(subject, body) == m
  {
    var (line, rest) := SplitLine(m[|SubjectPrefix|..]);
    assert m == m[..|SubjectPrefix|] + m[|SubjectPrefix|..];
    assert rest.value == "\n" + rest.value[1..];
  }
}
