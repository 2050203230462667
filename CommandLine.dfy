/** The command line a zone server launches a game server with (ZoneServer.cs), and how the
    game server reads it back (GameServer.cs): the arguments are the game server's address
    and port separated by a space, optionally followed by " -batchmode -nographics"; the
    game server takes the first argument as its address and parses the second as its port.

    Integers are written in decimal with a leading '-' when negative (int.ToString() under
    the invariant culture); int.Parse is modelled on that same form (no surrounding white
    space, no '+', no thousands separators). The process's argument vector is the command
    line split at spaces, empty pieces dropped. */
module CommandLine {
  import opened Common

  const BatchModeArguments: string := " -batchmode -nographics"

  predicate IsDigit(c: char) {
    '0' <= c <= '9'
  }

  function DigitChar(d: nat): (c: char)
    requires d < 10
    ensures IsDigit(c)
  {
    ('0' as int + d) as char
  }

  function DigitValue(c: char): (d: nat)
    requires IsDigit(c)
    ensures d < 10
  {
    (c as int - '0' as int) as nat
  }

  /** Decimal digits of a natural number, most significant first, without leading zeros. */
  function NatToString(n: nat): (s: string)
    ensures |s| > 0
    ensures forall i :: 0 <= i < |s| ==> IsDigit(s[i])
    decreases n
  {
    if n < 10 then [DigitChar(n)] else NatToString(n / 10) + [DigitChar(n % 10)]
  }

  /** int.ToString(). */
  function IntToString(n: int): (s: string)
    ensures |s| > 0
    ensures forall i :: 0 <= i < |s| ==> s[i] != ' '
    ensures n < 0 <==> s[0] == '-'
  {
    if n < 0 then "-" + NatToString(-n) else NatToString(n)
  }

  /** The value of a non-empty string of decimal digits. */
  function ParseDigits(s: string): (n: nat)
    requires |s| > 0 && forall i :: 0 <= i < |s| ==> IsDigit(s[i])
    decreases |s|
  {
    if |s| == 1 then DigitValue(s[0])
    else ParseDigits(s[..|s| - 1]) * 10 + DigitValue(s[|s| - 1])
  }

  /** int.Parse on the decimal form; `None` where the source throws a FormatException. */
  function ParseInt(s: string): (r: Option<int>)
    ensures r.Some? <==> (|s| > 0 && forall i :: 0 <= i < |s| ==> IsDigit(s[i]))
                         || (|s| > 1 && s[0] == '-' && forall i :: 1 <= i < |s| ==> IsDigit(s[i]))
    ensures r.Some? && r.value < 0 ==> s[0] == '-'
    ensures r.Some? && s[0] != '-' ==> r.value >= 0
  {
    if |s| > 0 && s[0] == '-' && |s| > 1 && forall i :: 1 <= i < |s| ==> IsDigit(s[i]) then
      var magnitude: int := ParseDigits(s[1..]);
      Some(-magnitude)
    else if |s| > 0 && forall i :: 0 <= i < |s| ==> IsDigit(s[i]) then
      Some(ParseDigits(s))
    else
      None
  }

  lemma {:induction false} ParseDigitsOfNatToString(n: nat)
    ensures ParseDigits(NatToString(n)) == n
    decreases n
  {
    if n >= 10 {
      var s := NatToString(n);
      assert s[..|s| - 1] == NatToString(n / 10);
      ParseDigitsOfNatToString(n / 10);
    }
  }

  /** int.Parse reads back what int.ToString writes. */
  lemma {:induction false} ParseIntOfIntToString(n: int)
    ensures ParseInt(IntToString(n)) == Some(n)
  {
    var s := IntToString(n);
    if n < 0 {
      assert s[1..] == NatToString(-n);
      ParseDigitsOfNatToString(-n);
    } else {
      ParseDigitsOfNatToString(n);
    }
  }

  /** The length of the leading run of non-space characters. */
  function WordLength(s: string): (n: nat)
    ensures n <= |s|
    ensures forall i :: 0 <= i < n ==> s[i] != ' '
    ensures n < |s| ==> s[n] == ' '
  {
    if |s| == 0 || s[0] == ' ' then 0 else 1 + WordLength(s[1..])
  }

  /** The argument vector of a command line: the pieces between spaces, empty pieces dropped.
      Only the single space separates arguments here (no quoting, no tabs), which is all the
      command lines LaunchArguments builds need. */
  function Words(s: string): (r: seq<string>)
    ensures forall k :: 0 <= k < |r| ==> |r[k]| > 0
    decreases |s|
  {
    if |s| == 0 then []
    else if s[0] == ' ' then Words(s[1..])
    else
      var n := WordLength(s);
      [s[..n]] + Words(s[n..])
  }

  predicate IsWord(w: string) {
    |w| > 0 && forall i :: 0 <= i < |w| ==> w[i] != ' '
  }

  lemma {:induction false} WordLengthOfWord(w: string, rest: string)
    requires forall i :: 0 <= i < |w| ==> w[i] != ' '
    requires |rest| == 0 || rest[0] == ' '
    ensures WordLength(w + rest) == |w|
    decreases |w|
  {
    if |w| > 0 {
      assert (w + rest)[1..] == w[1..] + rest;
      WordLengthOfWord(w[1..], rest);
    }
  }

  /** A word followed by a space-led (or empty) rest splits off as the first argument. */
  lemma {:induction false} WordsOfWordThenRest(w: string, rest: string)
    requires IsWord(w)
    requires |rest| == 0 || rest[0] == ' '
    ensures Words(w + rest) == [w] + Words(rest)
  {
    WordLengthOfWord(w, rest);
    assert (w + rest)[..|w|] == w;
    assert (w + rest)[|w|..] == rest;
  }

  /** The arguments ZoneServer.SpawnGameServer passes to the game server binary. */
  function LaunchArguments(ip: string, port: int, batchMode: bool): (s: string)
    ensures |s| > |ip| + 1 && s[..|ip|] == ip && s[|ip|] == ' '
    ensures !batchMode ==> s[|ip| + 1..] == IntToString(port)
    ensures batchMode ==> |s| > |BatchModeArguments| && s[|s| - |BatchModeArguments|..] == BatchModeArguments
  {
    ip + " " + IntToString(port) + (if batchMode then BatchModeArguments else "")
  }

  /** A leading space is skipped. */
  lemma {:induction false} WordsSkipsLeadingSpace(s: string)
    ensures Words(" " + s) == Words(s)
  {
    assert (" " + s)[1..] == s;
  }

  /** Two space-led words split into those two words. */
  lemma {:induction false} WordsOfTwoFlags(b: string, g: string)
    requires IsWord(b) && IsWord(g)
    ensures Words(" " + b + " " + g) == [b, g]
  {
    assert " " + b + " " + g == " " + (b + (" " + g));
    WordsSkipsLeadingSpace(b + (" " + g));
    WordsOfWordThenRest(b, " " + g);
    WordsSkipsLeadingSpace(g);
    WordsOfWordThenRest(g, "");
    assert g + "" == g;
  }

  lemma {:induction false} BatchFlags()
    ensures Words(BatchModeArguments) == ["-batchmode", "-nographics"]
  {
    var b := "-batchmode";
    var g := "-nographics";
    assert IsWord(b) && IsWord(g);
    assert BatchModeArguments == " " + b + " " + g;
    WordsOfTwoFlags(b, g);
  }

  /** Two words separated by a space, then a space-led (or empty) rest. */
  lemma {:induction false} WordsOfTwoWordsThenRest(a: string, b: string, rest: string)
    requires IsWord(a) && IsWord(b)
    requires |rest| == 0 || rest[0] == ' '
    ensures Words(a + " " + b + rest) == [a, b] + Words(rest)
  {
    var tail := b + rest;
    var spaced := " " + tail;
    assert a + " " + b + rest == a + spaced;
    calc {
      Words(a + spaced);
      { WordsOfWordThenRest(a, spaced); }
      [a] + Words(spaced);
      { WordsSkipsLeadingSpace(tail); }
      [a] + Words(tail);
      { WordsOfWordThenRest(b, rest); }
      [a] + ([b] + Words(rest));
      [a, b] + Words(rest);
    }
  }

  /** The arguments split back into the address, the port and the batch-mode flags. */
  lemma {:induction false} WordsOfLaunchArguments(ip: string, port: int, batchMode: bool)
    requires IsWord(ip)
    ensures Words(LaunchArguments(ip, port, batchMode))
            == [ip, IntToString(port)] + (if batchMode then ["-batchmode", "-nographics"] else [])
  {
    var p := IntToString(port);
    assert IsWord(p);
    if batchMode {
      assert BatchModeArguments[0] == ' ';
      WordsOfTwoWordsThenRest(ip, p, BatchModeArguments);
      BatchFlags();
    } else {
      WordsOfTwoWordsThenRest(ip, p, "");
      assert ip + " " + p + "" == ip + " " + p;
    }
  }

  /** GameServer.Start for a spawned game server: the argument vector starts with the
      program name; argument 1 is the address and argument 2 the parsed port. */
  function AddressFromArguments(args: seq<string>): (r: Option<(string, int)>)
    ensures r.Some? ==> |args| >= 3 && r.value.0 == args[1] && ParseInt(args[2]) == Some(r.value.1)
    ensures |args| >= 3 && ParseInt(args[2]).Some? ==> r.Some?
  {
    if |args| >= 3 then
      match ParseInt(args[2])
      case Some(port) => Some((args[1], port))
      case None => None
    else None
  }

  /** Round trip: a game server launched by a zone server reads back exactly the address
      and port the zone server chose, whatever the batch-mode setting. */
  lemma {:induction false} LaunchedServerReadsItsAddress(program: string, ip: string, port: int, batchMode: bool)
    requires IsWord(ip)
    ensures AddressFromArguments([program] + Words(LaunchArguments(ip, port, batchMode))) == Some((ip, port))
  {
    WordsOfLaunchArguments(ip, port, batchMode);
    ParseIntOfIntToString(port);
  }
}
