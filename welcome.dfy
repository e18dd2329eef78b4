/** The dashboard's welcome banner: a greeting chosen by the hour of the day
    and the user's first name. */
module Welcome {
  import opened Common
  import opened Text

  const MORNING := "Good morning"
  const AFTERNOON := "Good afternoon"
  const EVENING := "Good evening"

  /** `getTimeBasedGreeting`, for the hour `new Date().getHours()` returns. */
  function TimeBasedGreeting(hour: int): string
  {
    if hour < 12 then MORNING
    else if hour < 18 then AFTERNOON
    else EVENING
  }

  /** Each greeting covers one band of hours, and every hour of the day
      gets exactly one of the three. */
  lemma GreetingBands(hour: int)
    ensures TimeBasedGreeting(hour) == MORNING <==> hour < 12
    ensures TimeBasedGreeting(hour) == AFTERNOON <==> 12 <= hour < 18
    ensures TimeBasedGreeting(hour) == EVENING <==> hour >= 18
    ensures 0 <= hour < 24 ==> TimeBasedGreeting(hour) in {MORNING, AFTERNOON, EVENING}
  {
  }

  /** `user.name?.split(' ')[0] || 'User'`; a missing name is `None`. */
  function FirstName(name: Option<string>): string
  {
    if name.None? then "User"
    else
      var token := FirstToken(name.value);
      if token == "" then "User" else token
  }

  /** The first name is the text before the first space of the name; it is
      "User" when there is no name or that text is empty (the name is empty
      or starts with a space). It is never empty and holds no space. */
  lemma FirstNameProperties(name: Option<string>)
    ensures name.None? ==> FirstName(name) == "User"
    ensures name.Some? && (name.value == "" || name.value[0] == ' ') ==> FirstName(name) == "User"
    ensures name.Some? && name.value != "" && name.value[0] != ' ' ==>
              && FirstName(name) == FirstToken(name.value)
              && |FirstName(name)| <= |name.value|
              && FirstName(name) == name.value[..|FirstName(name)|]
              && (|FirstName(name)| == |name.value| || name.value[|FirstName(name)|] == ' ')
    ensures FirstName(name) != "" && ' ' !in FirstName(name)
  {
    if name.Some? {
      FirstTokenIsPrefixBeforeSpace(name.value);
    }
  }

  /** A name without spaces is its own first name. */
  lemma SingleWordName(name: string)
    requires name != "" && ' ' !in name
    ensures FirstName(Some(name)) == name
  {
    FirstTokenOfWord(name);
  }

  lemma {:induction false} FirstTokenOfWord(s: string)
    requires ' ' !in s
    ensures FirstToken(s) == s
  {
    if s != [] {
      assert s[0] in s;
      assert forall c :: c in s[1..] ==> c in s;
      FirstTokenOfWord(s[1..]);
    }
  }
}
