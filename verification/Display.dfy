/** Sanitising and truncating text for a Discord embed (native/session_cluster.py:51-68, 277-303). */
module Display {
  import opened Letters

  const MAX_COMMAND_DISPLAY_LENGTH := 120
  const MAX_FIELD_VALUE_LENGTH := 1000
  const MAX_PROVIDER_FIELD_LENGTH := 200
  const ELLIPSIS := '\U{2026}'
  const BACKTICK := '`'

  const INTERESTING_COMMANDS := [
    "wget", "curl", "nc", "netcat", "python", "bash", "sh", "sudo", "su", "cat /etc/passwd",
    "cat /etc/shadow", "whoami", "id", "uname", "ps", "netstat", "nmap", "chmod", "chown",
    "rm -rf", "history"]

  /** [\x00-\x08\x0b\x0c\x0e-\x1f\x7f] */
  predicate IsControl(c: char) {
    var n := c as int;
    n <= 8 || n == 11 || n == 12 || 14 <= n <= 31 || n == 127
  }

  function Cleaned(text: string): (r: string)
    ensures forall c :: c in r ==> !IsControl(c) && c != BACKTICK
    ensures |r| <= |text|
  {
    if text == [] then []
    else if IsControl(text[0]) then Cleaned(text[1..])
    else [if text[0] == BACKTICK then '\'' else text[0]] + Cleaned(text[1..])
  }

  function Truncate(text: string, maxLength: nat): (r: string)
    requires maxLength >= 1
    ensures |r| <= maxLength
    ensures |text| <= maxLength ==> r == text
    ensures forall c :: c in r ==> c in text || c == ELLIPSIS
  {
    if |text| > maxLength then text[..maxLength - 1] + [ELLIPSIS] else text
  }

  /** sanitize_display; the argument is the value's str(). */
  function Sanitize(value: string, maxLength: nat): (r: string)
    requires maxLength >= 1
    ensures |r| <= maxLength && Presentable(r)
  {
    Truncate(Cleaned(value), maxLength)
  }

  /** Safe between backticks on one embed line: no backtick and no control character. */
  predicate Presentable(s: string) {
    forall c :: c in s ==> !IsControl(c) && c != BACKTICK
  }

  lemma {:induction false} CleanedFixed(s: string)
    requires Presentable(s)
    ensures Cleaned(s) == s
  {
    if s != [] {
      assert s[0] in s;
      CleanedFixed(s[1..]);
    }
  }

  /** Sanitising is idempotent, so text that went through a cluster and back is not cut twice. */
  lemma SanitizeIdempotent(value: string, maxLength: nat)
    requires maxLength >= 1
    ensures Sanitize(Sanitize(value, maxLength), maxLength) == Sanitize(value, maxLength)
  {
    CleanedFixed(Sanitize(value, maxLength));
  }

  /** Character by character: the codes 0 to 8, 11, 12, 14 to 31 and 127 are dropped, a backtick becomes an
      apostrophe, and everything else, tab and line break included, stays. */
  lemma {:induction false} CleanedText(a: string, c: char, b: string)
    ensures Cleaned("") == "" && Cleaned(a + b) == Cleaned(a) + Cleaned(b)
    ensures var n := c as int;
      Cleaned([c]) ==
        if n <= 8 || n == 11 || n == 12 || 14 <= n <= 31 || n == 127 then ""
        else if c == '`' then "'" else [c]
  {
    assert [c][1..] == [];
    if a == [] {
      assert a + b == b;
    } else {
      assert (a + b)[1..] == a[1..] + b;
      CleanedText(a[1..], c, b);
    }
  }

  /** A text that fits is shown whole; a longer one loses its end and gets an ellipsis, to exactly the length. */
  lemma SanitizedText(value: string, maxLength: nat)
    requires maxLength >= 1
    ensures var clean, shown := Cleaned(value), Sanitize(value, maxLength);
      if |clean| <= maxLength then shown == clean
      else |shown| == maxLength && shown[..maxLength - 1] == clean[..maxLength - 1]
           && shown[maxLength - 1] == '\U{2026}'
  {
  }

  predicate ContainsAt(text: string, part: string, i: nat) {
    i + |part| <= |text| && forall j :: 0 <= j < |part| ==> Lower(text[i + j]) == part[j]
  }

  /** any(candidate in command.lower() for candidate in INTERESTING_COMMANDS) */
  predicate IsSuspicious(command: string) {
    exists k, i :: 0 <= k < |INTERESTING_COMMANDS| && 0 <= i <= |command| && ContainsAt(command,
        INTERESTING_COMMANDS[k], i)
  }

  function Lowered(text: string): (r: string)
    ensures |r| == |text| && forall i :: 0 <= i < |r| ==> r[i] == Lower(text[i])
  {
    seq(|text|, i requires 0 <= i < |text| => Lower(text[i]))
  }

  /** The word occurs in the text, letter case apart. */
  ghost predicate Mentions(text: string, word: string) {
    exists a, b :: Lowered(text) == a + word + b
  }

  lemma MentionsAt(text: string, word: string)
    ensures Mentions(text, word) <==> exists i :: 0 <= i <= |text| && ContainsAt(text, word, i)
  {
    if a, b :| Lowered(text) == a + word + b {
      var all := a + word + b;
      assert forall j :: 0 <= j < |word| ==> all[|a| + j] == word[j];
      assert ContainsAt(text, word, |a|);
    }
    if i :| 0 <= i <= |text| && ContainsAt(text, word, i) {
      var low := Lowered(text);
      assert low[i..i + |word|] == word;
      assert low == low[..i] + word + low[i + |word|..];
    }
  }

  lemma SuspiciousMentions(c: string)
    ensures IsSuspicious(c) <==> exists k :: 0 <= k < |INTERESTING_COMMANDS| && Mentions(c, INTERESTING_COMMANDS[k])
  {
    hide ContainsAt, Mentions, INTERESTING_COMMANDS;
    forall k | 0 <= k < |INTERESTING_COMMANDS|
      ensures Mentions(c, INTERESTING_COMMANDS[k])
        <==> exists i :: 0 <= i <= |c| && ContainsAt(c, INTERESTING_COMMANDS[k], i)
    {
      MentionsAt(c, INTERESTING_COMMANDS[k]);
    }
  }

  /** A command is suspicious exactly when it mentions one of these. */
  lemma {:induction false} SuspiciousMeans(c: string)
    ensures IsSuspicious(c) <==>
      || Mentions(c, "wget") || Mentions(c, "curl") || Mentions(c, "nc") || Mentions(c, "netcat")
      || Mentions(c, "python") || Mentions(c, "bash") || Mentions(c, "sh") || Mentions(c, "sudo") || Mentions(c, "su")
      || Mentions(c, "cat /etc/passwd") || Mentions(c, "cat /etc/shadow") || Mentions(c, "whoami")
      || Mentions(c, "id") || Mentions(c, "uname") || Mentions(c, "ps") || Mentions(c, "netstat")
      || Mentions(c, "nmap") || Mentions(c, "chmod") || Mentions(c, "chown") || Mentions(c, "rm -rf")
      || Mentions(c, "history")
  {
    hide IsSuspicious, Mentions;
    SuspiciousMentions(c);
    var w := INTERESTING_COMMANDS;
    assert |w| == 21 && w[0] == "wget" && w[1] == "curl" && w[2] == "nc" && w[3] == "netcat" && w[4] == "python"
      && w[5] == "bash" && w[6] == "sh" && w[7] == "sudo" && w[8] == "su" && w[9] == "cat /etc/passwd"
      && w[10] == "cat /etc/shadow" && w[11] == "whoami" && w[12] == "id" && w[13] == "uname" && w[14] == "ps"
      && w[15] == "netstat" && w[16] == "nmap" && w[17] == "chmod" && w[18] == "chown" && w[19] == "rm -rf"
      && w[20] == "history";
  }
}
