/** The two fixed reply shapes that both chat front ends share. */
module Replies {

  /** Returned when the SQL agent was not built at start-up. */
  const SystemError: string :=
    "System Error: " + "Database connection or OpenAI Key is not set up correctly. "
    + "Please check your .env file."

  /** Leading text of every reply produced from a caught exception. */
  const ErrorPrefix: string := "An error occurred: "

  /** `f"An error occurred: {str(e)}"`, given `str(e)`. Every such reply
      carries the error prefix and can never be mistaken for the
      configuration-fault message. */
  function ErrorReply(e: string): (r: string)
    ensures |r| >= |ErrorPrefix| && r[..|ErrorPrefix|] == ErrorPrefix
    ensures r != SystemError
  {
    var r := ErrorPrefix + e;
    assert r[0] == ErrorPrefix[0] == 'A';
    assert SystemError[0] == 'S';
    r
  }

  /** The fault text can be recovered from the reply: different faults give
      different replies. */
  lemma ErrorReplyInjective(a: string, b: string)
    requires ErrorReply(a) == ErrorReply(b)
    ensures a == b
  {
    assert ErrorReply(a)[|ErrorPrefix|..] == a;
    assert ErrorReply(b)[|ErrorPrefix|..] == b;
  }
}
