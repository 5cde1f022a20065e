/**
  The markup envelope around the configured login message. The message is
  embedded verbatim: no character of it is escaped.
 */
module LoginMessage {

  const Open: string := "<span class=\"login-message\">"
  const Close: string := "</span>"

  /** Wraps the configured message; the result is the opening tag, then
      every character of the message unchanged, then the closing tag. */
  function Wrap(message: string): (html: string)
    ensures |html| == |Open| + |message| + |Close|
    ensures html[..|Open|] == "<span class=\"login-message\">"
    ensures html[|Open|..|Open| + |message|] == message
    ensures html[|Open| + |message|..] == "</span>"
  {
    Open + message + Close
  }

  /** Recovers the message from its envelope, when it is one. */
  function Unwrap(html: string): (message: string)
    requires |Open| + |Close| <= |html|
  {
    html[|Open|..|html| - |Close|]
  }

  /** Unwrapping a wrapped message gives the message back. */
  lemma UnwrapWrap(message: string)
    ensures |Open| + |Close| <= |Wrap(message)|
    ensures Unwrap(Wrap(message)) == message
  {
  }

  /** Different configured messages never produce the same markup. */
  lemma WrapInjective(m: string, m': string)
    requires Wrap(m) == Wrap(m')
    ensures m == m'
  {
    UnwrapWrap(m);
    UnwrapWrap(m');
  }

  /** An empty message still yields the full envelope. */
  lemma EmptyMessage()
    ensures Wrap("") == "<span class=\"login-message\"></span>"
  {
  }
}
