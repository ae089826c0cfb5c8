/** app.py: the strings the agent-facing tools return. */
module App {

  const NO_MESSAGES := "No messages found."
  const HEADER := "Last emails:\n"

  /** `greet`: the name can be read back out of the greeting. */
  function Greet(name: string): (r: string)
    ensures |r| == |name| + 8
    ensures r[..7] == "Hello, " && r[7..|r| - 1] == name && r[|r| - 1] == '!'
  {
    "Hello, " + name + "!"
  }

  /** `send_email`: only a confirmation string; nothing is sent and the body is unused. */
  function SendEmail(recipient: string, subject: string, body: string): (r: string)
    ensures |r| == |recipient| + |subject| + 31
    ensures r[..14] == "Email sent to " && r[14..14 + |recipient|] == recipient
    ensures r[14 + |recipient|..29 + |recipient|] == " with subject '"
    ensures r[29 + |recipient|..|r| - 2] == subject && r[|r| - 2..] == "'."
  {
    "Email sent to " + recipient + " with subject '" + subject + "'."
  }

  /** One listed email. */
  function Line(snippet: string): string
  {
    "- " + snippet + "\n"
  }

  /** The lines of a listing, in input order. */
  function Lines(snippets: seq<string>): string
  {
    if snippets == [] then "" else Lines(snippets[..|snippets| - 1]) + Line(snippets[|snippets| - 1])
  }

  /** Listing two runs of snippets is listing each, one after the other. */
  lemma {:induction false} LinesAppend(a: seq<string>, b: seq<string>)
    ensures Lines(a + b) == Lines(a) + Lines(b)
    decreases |b|
  {
    if b == [] {
      assert a + b == a;
    } else {
      assert (a + b)[..|a + b| - 1] == a + b[..|b| - 1];
      LinesAppend(a, b[..|b| - 1]);
    }
  }

  /** The listing starts with the first snippet's line. */
  lemma LinesStartWithFirst(snippets: seq<string>)
    requires snippets != []
    ensures Lines(snippets) == Line(snippets[0]) + Lines(snippets[1..])
  {
    LinesAppend([snippets[0]], snippets[1..]);
    assert [snippets[0]] + snippets[1..] == snippets;
    assert [snippets[0]][..0] == [];
  }

  /** `list_emails`, over the snippets of the listed messages. */
  method ListEmails(snippets: seq<string>) returns (output: string)
    ensures snippets == [] ==> output == NO_MESSAGES
    ensures snippets != [] ==> output == HEADER + Lines(snippets)
    ensures snippets != [] ==> output[..|HEADER|] == HEADER && output != NO_MESSAGES
  {
    if |snippets| == 0 {
      return NO_MESSAGES;
    }
    output := HEADER;
    for i := 0 to |snippets|
      invariant output == HEADER + Lines(snippets[..i])
    {
      assert snippets[..i + 1][..i] == snippets[..i];
      output := output + Line(snippets[i]);
    }
    assert snippets[..|snippets|] == snippets;
    assert output[..|HEADER|] == HEADER;
    assert output[|HEADER| - 1] != NO_MESSAGES[|HEADER| - 1];
  }
}
