/** Two display helpers the pages define locally: `getInitials`, which
    Contacts, Reminders and Dashboard each define identically, and
    `formatLastContact`, which Contacts and Dashboard each define
    identically. */
module Display {
  import opened Wrappers
  import opened Text

  /** `n[0]` of a token, which is `undefined` for the empty token and joins
      as nothing. */
  function FirstChar(token: string): (r: string)
    ensures |r| <= 1
    ensures r == [] <==> token == []
    ensures r != [] ==> r[0] == token[0]
  {
    if token == [] then [] else [token[0]]
  }

  /** `.map((n) => n[0]).join("")` over a list of tokens. */
  function FirstChars(tokens: seq<string>): (r: string)
    ensures |r| <= |tokens|
  {
    if tokens == [] then [] else FirstChar(tokens[0]) + FirstChars(tokens[1..])
  }

  /** `getInitials(name)`: the first character of every piece of
      `name.split(" ")`, joined, with no change of case. */
  function Initials(name: string): (r: string)
    ensures |r| <= |Split(name, ' ')|
  {
    FirstChars(Split(name, ' '))
  }

  /** Reference definition scanning characters: a character is an initial
      exactly when it is not a space and starts a word, that is, it is the
      first character or follows a space. `atStart` says whether the
      previous character was a space (or there was none). */
  function WordStarts(s: string, atStart: bool): string
    decreases |s|
  {
    if s == [] then []
    else (if s[0] != ' ' && atStart then [s[0]] else []) + WordStarts(s[1..], s[0] == ' ')
  }

  lemma FirstCharsCons(t: string, rest: seq<string>)
    ensures FirstChars([t] + rest) == FirstChar(t) + FirstChars(rest)
  {
    assert ([t] + rest)[1..] == rest;
  }

  lemma {:induction false} WordStartsAgree(s: string)
    ensures WordStarts(s, true) == FirstChars(Split(s, ' '))
    ensures WordStarts(s, false) == FirstChars(Split(s, ' ')[1..])
    decreases |s|
  {
    if s != [] {
      WordStartsAgree(s[1..]);
      var t := Split(s[1..], ' ');
      if s[0] == ' ' {
        FirstCharsCons("", t);
        assert Split(s, ' ')[1..] == t;
      } else {
        var u := Split(s, ' ');
        assert u == [[s[0]] + t[0]] + t[1..];
        FirstCharsCons([s[0]] + t[0], t[1..]);
        assert u[1..] == t[1..];
      }
    }
  }

  /** The initials are exactly the characters that start a word. */
  lemma InitialsAreWordStarts(name: string)
    ensures Initials(name) == WordStarts(name, true)
  {
    WordStartsAgree(name);
  }

  /** Initials never contain a space. */
  lemma {:induction false} WordStartsHaveNoSpace(s: string, atStart: bool)
    ensures ' ' !in WordStarts(s, atStart)
    decreases |s|
  {
    if s != [] {
      WordStartsHaveNoSpace(s[1..], s[0] == ' ');
    }
  }

  /** What `formatLastContact` shows: "Never", or the relative phrase that
      date-fns' `formatDistanceToNow` produces for the timestamp. */
  datatype LastContactLabel = Never | RelativeTo(timestamp: string)

  /** `formatLastContact(dateStr)`: a null or empty date is "Never". */
  function FormatLastContact(dateStr: Option<string>): (r: LastContactLabel)
    ensures r == Never <==> dateStr == None || dateStr == Some("")
    ensures r.RelativeTo? ==> dateStr == Some(r.timestamp)
  {
    if dateStr.None? || !Truthy(dateStr.value) then Never else RelativeTo(dateStr.value)
  }
}
