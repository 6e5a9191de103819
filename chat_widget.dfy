/** The browser side of the chat widget (static/js/chatbot.js): the send guard
    that trims the typed text, the markdown-style formatter applied to every
    message shown, and the choice of the bot's reply from the server's answer.
    The page is reduced to the input field's text, the list of shown messages
    and the list of messages posted to the server. */
module ChatWidget {
  import opened Strings

  // ---------------------------------------------------------------------------
  // Characters

  /** JavaScript's `LineTerminator`: the characters `.` does not match in a
      regular expression without the `s` flag. */
  predicate IsLineTerminator(c: char) {
    c == '\n' || c == '\r' || c == '\U{2028}' || c == '\U{2029}'
  }

  /** `WhiteSpace` and `LineTerminator` of ECMAScript: what `String.prototype.trim`
      removes. */
  predicate IsJsSpace(c: char) {
    || ('\t' <= c <= '\r')
    || c == ' ' || c == '\U{A0}' || c == '\U{1680}'
    || ('\U{2000}' <= c <= '\U{200A}')
    || c == '\U{2028}' || c == '\U{2029}' || c == '\U{202F}' || c == '\U{205F}'
    || c == '\U{3000}' || c == '\U{FEFF}'
  }

  /** `String.prototype.trim`: `Strip` with JavaScript's whitespace class. */
  function Trim(s: string): string {
    Strip(s, IsJsSpace)
  }

  // ---------------------------------------------------------------------------
  // The formatter: .replace(/\*\*(.*?)\*\*/g, '<strong>$1</strong>').replace(/\n/g, '<br>')

  /** In `t`, the text before position `k` can be the lazy group `(.*?)` and a
      closing `**` starts at `k`. */
  predicate Closes(t: string, k: int) {
    && 0 <= k && k + 2 <= |t| && t[k] == '*' && t[k + 1] == '*'
    && forall i :: 0 <= i < k ==> !IsLineTerminator(t[i])
  }

  /** Where the lazy group ends for a match whose opening `**` precedes `t`:
      the first position at which a closing `**` can follow, if any. */
  function Close(t: string): (r: Option<nat>)
    ensures r.Some? ==> Closes(t, r.value) && forall j :: 0 <= j < r.value ==> !Closes(t, j)
    ensures r.None? ==> forall j :: !Closes(t, j)
    decreases |t|
  {
    if |t| < 2 then None
    else if t[0] == '*' && t[1] == '*' then Some(0)
    else if IsLineTerminator(t[0]) then None
    else match Close(t[1..])
      case Some(k) =>
        assert forall j :: 1 <= j <= k + 1 ==> (Closes(t, j) <==> Closes(t[1..], j - 1));
        Some(k + 1)
      case None =>
        assert forall j :: 1 <= j ==> (Closes(t, j) ==> Closes(t[1..], j - 1));
        None
  }

  /** The replacement `<strong>$1</strong>`. */
  function Strong(x: string): string {
    "<strong>" + x + "</strong>"
  }

  /** The global replacement of `**X**` by `<strong>X</strong>`: matches are
      tried left to right, each with the shortest `X`, and scanning resumes
      after the closing `**`; where no match starts, one character is copied. */
  function Bold(s: string): (r: string)
    decreases |s|
  {
    if s == [] then []
    else if |s| >= 2 && s[0] == '*' && s[1] == '*' then
      match Close(s[2..])
      case Some(k) => Strong(s[2..2 + k]) + Bold(s[4 + k..])
      case None => [s[0]] + Bold(s[1..])
    else [s[0]] + Bold(s[1..])
  }

  /** Every newline replaced by `<br>`. */
  function Breaks(s: string): (r: string)
    ensures '\n' !in r
    ensures '\n' !in s ==> r == s
    decreases |s|
  {
    if s == [] then []
    else if s[0] == '\n' then "<br>" + Breaks(s[1..])
    else [s[0]] + Breaks(s[1..])
  }

  /** The text a message bubble shows for `text`. */
  function FormatMessage(text: string): (html: string)
    ensures '\n' !in html
  {
    Breaks(Bold(text))
  }

  /** Copying runs over a prefix without asterisks. */
  lemma {:induction false} BoldPlainPrefix(t: string, u: string)
    requires '*' !in t
    ensures Bold(t + u) == t + Bold(u)
    decreases |t|
  {
    if t != [] {
      var s := t + u;
      assert s[0] == t[0] && t[0] != '*';
      assert Bold(s) == [t[0]] + Bold(s[1..]);
      assert s[1..] == t[1..] + u;
      BoldPlainPrefix(t[1..], u);
    } else {
      assert t + u == u;
    }
  }

  /** Newline replacement works piece by piece. */
  lemma {:induction false} BreaksAppend(t: string, u: string)
    ensures Breaks(t + u) == Breaks(t) + Breaks(u)
    decreases |t|
  {
    if t == [] {
      assert t + u == u;
    } else {
      assert (t + u)[1..] == t[1..] + u;
      BreaksAppend(t[1..], u);
    }
  }

  lemma {:induction false} BoldNoStar(s: string)
    requires '*' !in s
    ensures Bold(s) == s
    decreases |s|
  {
    if s != [] {
      assert s[0] in s;
      assert forall c :: c in s[1..] ==> c in s;
      BoldNoStar(s[1..]);
      assert [s[0]] + s[1..] == s;
    }
  }

  /** Text with neither an asterisk nor a newline is shown as it is. */
  lemma PlainTextUnchanged(text: string)
    requires '*' !in text && '\n' !in text
    ensures FormatMessage(text) == text
  {
    BoldNoStar(text);
  }

  /** Where a match starts, the bold text is the lazy group and scanning
      resumes after the closing pair. */
  lemma BoldMatchStep(s: string, k: nat)
    requires |s| >= 2 && s[0] == '*' && s[1] == '*' && Close(s[2..]) == Some(k)
    ensures Bold(s) == Strong(s[2..2 + k]) + Bold(s[4 + k..])
  {
  }

  /** In `**X**`, with X free of asterisks and line breaks, the group closes
      right after X. */
  lemma CloseOfPair(x: string)
    requires '*' !in x
    requires forall i :: 0 <= i < |x| ==> !IsLineTerminator(x[i])
    ensures Close(("**" + x + "**")[2..]) == Some(|x|)
  {
    var t := ("**" + x + "**")[2..];
    assert t == x + "**";
    assert Closes(t, |x|);
    forall j | 0 <= j < |x| ensures !Closes(t, j) {
      assert t[j] == x[j] && x[j] in x;
    }
  }

  /** A closed pair around text with no asterisk and no line break becomes bold. */
  lemma BoldPair(x: string)
    requires '*' !in x
    requires forall i :: 0 <= i < |x| ==> !IsLineTerminator(x[i])
    ensures Bold("**" + x + "**") == Strong(x)
  {
    var s := "**" + x + "**";
    CloseOfPair(x);
    BoldMatchStep(s, |x|);
    assert s[2..2 + |x|] == x;
    assert s[4 + |x|..] == [];
  }

  /** An opening `**` that no closing pair follows is copied, and scanning
      goes on after it. */
  lemma OpeningCopied(t: string)
    requires Close(t).None?
    requires t == [] || t[0] != '*'
    ensures Bold("**" + t) == "**" + Bold(t)
  {
    var s := "**" + t;
    assert s[2..] == t;
    assert Bold(s) == "*" + Bold(s[1..]);
    var u := s[1..];
    assert u == "*" + t && u[1..] == t;
    assert Bold(u) == "*" + Bold(t);
  }

  /** An opening `**` with no asterisk after it stays literal. */
  lemma UnpairedStaysLiteral(x: string)
    requires '*' !in x
    ensures Bold("**" + x) == "**" + x
  {
    assert forall j :: !Closes(x, j) by {
      forall j | 0 <= j && j + 2 <= |x| ensures !Closes(x, j) {
        assert x[j] in x;
      }
    }
    if x != [] {
      assert x[0] in x;
    }
    OpeningCopied(x);
    BoldNoStar(x);
  }

  /** A lone `**` is kept. */
  lemma BoldOfLonePair()
    ensures Bold("**") == "**"
  {
    UnpairedStaysLiteral([]);
    assert "**" + [] == "**";
  }

  /** Helper for `BoldAcrossNewline`: text joined around a newline from two parts
      without asterisks has none. */
  lemma StarFreeAroundNewline(a: string, b: string)
    requires '*' !in a && '*' !in b
    ensures '*' !in a + "\n" + b
  {
    var m := a + "\n" + b;
    forall i | 0 <= i < |m| ensures m[i] != '*' {
      if i < |a| { assert m[i] == a[i] && a[i] in a; }
      else if i > |a| { assert m[i] == b[i - |a| - 1] && b[i - |a| - 1] in b; }
    }
  }

  /** A line break between the opening `**` and the only closing one leaves
      the pair unmatched. */
  lemma NoCloseAcrossNewline(a: string, b: string)
    requires '*' !in a && '*' !in b
    ensures Close(a + "\n" + b + "**").None?
    ensures (a + "\n" + b + "**")[0] != '*'
  {
    var t := a + "\n" + b + "**";
    assert IsLineTerminator(t[|a|]);
    forall j | Closes(t, j) ensures false {
    }
    if a != [] { assert t[0] == a[0] && a[0] in a; }
  }

  /** The bolding step leaves a pair split by a newline as it is. */
  lemma BoldAcrossNewline(a: string, b: string)
    requires '*' !in a && '*' !in b
    ensures Bold("**" + a + "\n" + b + "**") == "**" + a + "\n" + b + "**"
  {
    var m := a + "\n" + b;
    var t := m + "**";
    StarFreeAroundNewline(a, b);
    NoCloseAcrossNewline(a, b);
    OpeningCopied(t);
    BoldPlainPrefix(m, "**");
    BoldOfLonePair();
    // Bold("**" + t) == "**" + (m + "**") == "**" + t; regroup the literal form.
    AppendAssoc("**", a, "\n");
    AppendAssoc("**", a + "\n", b);
    AppendAssoc("**", m, "**");
  }

  /** A newline between two newline-free parts becomes `<br>`. */
  lemma BreaksOneNewline(x: string, y: string)
    requires '\n' !in x && '\n' !in y
    ensures Breaks(x + "\n" + y) == x + "<br>" + y
  {
    BreaksAppend(x + "\n", y);
    BreaksAppend(x, "\n");
    assert Breaks("\n") == "<br>";
  }

  /** Bolding runs before newlines are replaced, so a pair split by a newline
      stays literal and only the newline changes. */
  lemma NewlineBlocksBold(a: string, b: string)
    requires '*' !in a && '*' !in b && '\n' !in a && '\n' !in b
    ensures FormatMessage("**" + a + "\n" + b + "**") == "**" + a + "<br>" + b + "**"
  {
    BoldAcrossNewline(a, b);
    var front, back := "**" + a, b + "**";
    assert '\n' !in front && '\n' !in back;
    BreaksOneNewline(front, back);
    AppendAssoc(front + "\n", b, "**");
    AppendAssoc(front + "<br>", b, "**");
  }

  // ---------------------------------------------------------------------------
  // The server's answer

  const FailedReply: string := "Sorry, something went wrong. Please try again."
  const ConnectionReply: string := "Sorry, I am having trouble connecting. Please try again later."

  /** What the `fetch` chain ends with: a parsed JSON body (its `status` and
      `response` members, each absent or not a string when `None`), or a
      failure of the request or of the JSON parsing. */
  datatype ServerAnswer =
    | Parsed(status: Option<string>, response: Option<string>)
    | Unreachable

  /** The text of the bot bubble the answer leads to. A `success` body without
      a string `response` makes the formatter throw inside the `then` handler,
      so the `catch` handler's message is shown instead. */
  function ReplyText(answer: ServerAnswer): (text: string)
    ensures answer.Parsed? && answer.status == Some("success") && answer.response.Some?
            ==> text == answer.response.value
    ensures answer.Parsed? && answer.status != Some("success") ==> text == FailedReply
    ensures answer.Unreachable? || (answer.status == Some("success") && answer.response.None?)
            ==> text == ConnectionReply
  {
    match answer
    case Unreachable => ConnectionReply
    case Parsed(status, response) =>
      if status == Some("success") then
        match response
        case Some(reply) => reply
        case None => ConnectionReply
      else FailedReply
  }

  /** The server's text reaches the page only under the status `success`. */
  lemma ServerTextOnlyOnSuccess(answer: ServerAnswer)
    requires answer.Parsed? && answer.response.Some?
    requires answer.response.value != FailedReply && answer.response.value != ConnectionReply
    ensures ReplyText(answer) == answer.response.value <==> answer.status == Some("success")
  {
  }

  // ---------------------------------------------------------------------------
  // The page

  datatype Sender = User | Bot

  /** One message element: its CSS class follows the sender, and it shows the
      text given to `addMessage`, formatted (`Html`). */
  datatype Bubble = Bubble(sender: Sender, text: string)

  /** The inner HTML of a message element. */
  function Html(b: Bubble): (html: string)
    ensures '\n' !in html
  {
    FormatMessage(b.text)
  }

  /** What the page holds: the input field's text, the message elements
      (oldest first) and the `message` members of the bodies posted to `/chat`. */
  datatype Page = Page(input: string, messages: seq<Bubble>, posted: seq<string>)

  /** `addMessage(text, sender)`: one more bubble, showing `text` formatted. */
  function Shown(p: Page, text: string, sender: Sender): Page {
    p.(messages := p.messages + [Bubble(sender, text)])
  }

  /** `sendMessage`: the page after a click on the send button. */
  function Sent(p: Page): Page {
    var message := Trim(p.input);
    if message == [] then p
    else Shown(p, message, User).(input := [], posted := p.posted + [message])
  }

  /** A field holding only whitespace is neither shown nor sent. */
  lemma BlankIsNotSent(p: Page)
    requires AllSpace(p.input, IsJsSpace)
    ensures Sent(p) == p
  {
    StripEmptyIff(p.input, IsJsSpace);
  }

  /** Trimming text that is not all whitespace leaves a non-empty slice of it
      with only whitespace around it and none at its ends. */
  lemma TrimKeepsContent(s: string)
    requires !AllSpace(s, IsJsSpace)
    ensures Trim(s) != []
    ensures exists k :: IsStrippedAt(s, Trim(s), k, IsJsSpace)
    ensures !IsJsSpace(Trim(s)[0]) && !IsJsSpace(Trim(s)[|Trim(s)| - 1])
  {
    StripEmptyIff(s, IsJsSpace);
  }

  /** Any other text is shown once and posted once, both in trimmed form, and
      the field is cleared. */
  lemma TrimmedIsShownAndSent(p: Page)
    requires !AllSpace(p.input, IsJsSpace)
    ensures Sent(p).input == []
    ensures Sent(p).messages == p.messages + [Bubble(User, Trim(p.input))]
    ensures Sent(p).posted == p.posted + [Trim(p.input)]
  {
    TrimKeepsContent(p.input);
  }

  /** A second click right after the first sends nothing more. */
  lemma SendTwiceIsSendOnce(p: Page)
    ensures Sent(Sent(p)) == Sent(p)
  {
    if Trim(p.input) != [] {
      assert Sent(p).input == [];
      assert AllSpace(Sent(p).input, IsJsSpace);
    }
  }

  class Widget {
    /** The text of the input field. */
    var input: string
    /** The message elements, oldest first. */
    var messages: seq<Bubble>
    /** The `message` members of the request bodies posted to `/chat`. */
    var posted: seq<string>

    function State(): Page
      reads this
    {
      Page(input, messages, posted)
    }

    constructor ()
      ensures State() == Page([], [], [])
    {
      input := [];
      messages := [];
      posted := [];
    }

    /** The user types into the field. */
    method Type(text: string)
      modifies this
      ensures State() == old(State()).(input := text)
    {
      input := text;
    }

    /** `addMessage`: appends one formatted bubble. */
    method AddMessage(text: string, sender: Sender)
      modifies this
      ensures State() == Shown(old(State()), text, sender)
    {
      messages := messages + [Bubble(sender, text)];
    }

    /** `sendMessage`: a blank field changes nothing; otherwise the trimmed text
        is shown, the field cleared and the trimmed text posted. */
    method SendMessage()
      modifies this
      ensures State() == Sent(old(State()))
    {
      var message := Trim(input);
      if message == [] {
        return;
      }
      AddMessage(message, User);
      input := [];
      posted := posted + [message];
    }

    /** The `then`/`catch` handlers: one bot bubble for the server's answer. */
    method ReceiveAnswer(answer: ServerAnswer)
      modifies this
      ensures State() == Shown(old(State()), ReplyText(answer), Bot)
    {
      AddMessage(ReplyText(answer), Bot);
    }
  }
}
