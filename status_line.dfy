/**
 * The one timestamped status line each handled path prints: the clock
 * string cut at its first '.', and the message words of each of the two
 * scripts, joined the way Python's `print` joins its arguments.
 */
module StatusLine {

  /** Which of the two scripts is running; they differ only in the message wording. */
  datatype Script = KeysScript | KeyssScript

  /** The five situations that print a line. */
  datatype Event =
    | CredentialsCurrent       // reconcile found the key already stored
    | KeysRotated              // reconcile wrote the new pair
    | LocalCredentialsExpired  // reconcile raised
    | ProfileNotStored         // the fetch raised ProfileNotFound
    | SecretInvalid            // the fetch raised ClientError

  const ContactMessage: string := "Please contact podaac@podaac.jpl.nasa.gov for assistance."

  /** `str(clock).split(".")[0]`: the longest prefix before the first '.'. */
  function Timestamp(clock: string): (ts: string)
    ensures ts <= clock
    ensures '.' !in ts
    ensures |ts| == |clock| || clock[|ts|] == '.'
  {
    if clock == [] || clock[0] == '.' then [] else [clock[0]] + Timestamp(clock[1..])
  }

  predicate IsDigit(c: char)
  {
    '0' <= c <= '9'
  }

  /** `str(datetime)`: "YYYY-MM-DD HH:MM:SS", followed by ".ffffff" unless the microseconds are zero. */
  predicate UtcClock(s: string)
  {
    && (|s| == 19 || (|s| == 26 && s[19] == '.' && forall i :: 20 <= i < 26 ==> IsDigit(s[i])))
    && (forall i :: 0 <= i < 19 && i !in {4, 7, 10, 13, 16} ==> IsDigit(s[i]))
    && s[4] == '-' && s[7] == '-' && s[10] == ' ' && s[13] == ':' && s[16] == ':'
  }

  /** On a clock string the timestamp is always "YYYY-MM-DD HH:MM:SS": no fraction, no zone. */
  lemma TimestampOfUtcClock(clock: string)
    requires UtcClock(clock)
    ensures Timestamp(clock) == clock[..19]
  {
  }

  /** `print(*args)`: the arguments separated by one space, then a newline. */
  function Join(args: seq<string>): string
  {
    if |args| == 0 then "" else if |args| == 1 then args[0] else args[0] + " " + Join(args[1..])
  }

  function PrintLine(args: seq<string>): string
  {
    Join(args) + "\n"
  }

  function Quote(profile: string): string
  {
    "\"" + profile + "\""
  }

  function Stamp(ts: string): string
  {
    "[" + ts + "]"
  }

  /** The arguments rotate_upload_access_keys.py passes to `print`. */
  function KeysMessage(event: Event, ts: string, profile: string): seq<string>
  {
    match event
    case CredentialsCurrent =>
      [Stamp(ts), "NO CHANGES, Local credentials for ", Quote(profile), " are current."]
    case KeysRotated =>
      [Stamp(ts), "KEYS ROTATED, Local credentials for ", Quote(profile), " were rotated successfully."]
    case LocalCredentialsExpired =>
      [Stamp(ts), "ERROR! Local credentials for " + Quote(profile) + " may be expired.", ContactMessage]
    case ProfileNotStored =>
      [Stamp(ts), "ERROR! Local credentials are not stored for " + Quote(profile) + ".", ContactMessage]
    case SecretInvalid =>
      [Stamp(ts), "ERROR! Local credentials for " + Quote(profile) + " are expired or otherwise invalid.", ContactMessage]
  }

  /** The arguments rotate_upload_access_keyss.py passes to `print`. */
  function KeyssMessage(event: Event, ts: string, profile: string): seq<string>
  {
    match event
    case CredentialsCurrent =>
      ["\n", Stamp(ts), "OK! Local credentials for the", Quote(profile), "profile are the latest currently available.\n"]
    case KeysRotated =>
      ["\n", Stamp(ts), "OK! Local credentials for the", Quote(profile), "profile were updated successfully.\n"]
    case LocalCredentialsExpired =>
      ["\n", Stamp(ts), "ERROR! Local credentials for the " + Quote(profile) + " profile may be expired.", ContactMessage, "\n"]
    case ProfileNotStored =>
      ["\n", Stamp(ts), "ERROR! Local credentials are not stored for the " + Quote(profile) + " profile.", ContactMessage, "\n"]
    case SecretInvalid =>
      ["\n", Stamp(ts), "ERROR! Local credentials for the " + Quote(profile) + " profile are expired or otherwise invalid.", ContactMessage, "\n"]
  }

  function Message(script: Script, event: Event, ts: string, profile: string): seq<string>
  {
    match script
    case KeysScript => KeysMessage(event, ts, profile)
    case KeyssScript => KeyssMessage(event, ts, profile)
  }

  /** The line printed for `event`, with the clock read at that moment. */
  function Line(script: Script, event: Event, clock: string, profile: string): string
  {
    PrintLine(Message(script, event, Timestamp(clock), profile))
  }

  /** `q` occurs in `s` starting at index `i`. */
  predicate OccursAt(s: string, q: string, i: int)
  {
    0 <= i <= |s| - |q| && s[i..i + |q|] == q
  }

  /** `q` occurs somewhere in `s`. */
  ghost predicate Contains(s: string, q: string)
  {
    exists i :: OccursAt(s, q, i)
  }

  lemma ContainsInConcat(a: string, b: string, c: string, q: string)
    requires Contains(b, q)
    ensures Contains(a + b + c, q)
  {
    var i :| OccursAt(b, q, i);
    assert (a + b + c)[|a| + i..|a| + i + |q|] == b[i..i + |q|];
    assert OccursAt(a + b + c, q, |a| + i);
  }

  lemma ContainsItself(q: string)
    ensures Contains(q, q)
  {
    assert OccursAt(q, q, 0);
  }

  lemma JoinUnfold(args: seq<string>)
    requires |args| >= 2
    ensures Join(args) == args[0] + " " + Join(args[1..])
  {
  }

  /** Every argument appears in the joined line. */
  lemma {:induction false} JoinContainsArgument(args: seq<string>, k: nat)
    requires k < |args|
    ensures Contains(Join(args), args[k])
  {
    if |args| == 1 {
      ContainsItself(args[0]);
    } else if k == 0 {
      ContainsItself(args[0]);
      ContainsInConcat([], args[0], " " + Join(args[1..]), args[0]);
      assert [] + args[0] + (" " + Join(args[1..])) == Join(args);
    } else {
      JoinContainsArgument(args[1..], k - 1);
      ContainsInConcat(args[0] + " ", Join(args[1..]), [], args[k]);
      assert args[0] + " " + Join(args[1..]) + [] == Join(args);
    }
  }

  lemma ContainsTransitive(s: string, m: string, q: string)
    requires Contains(s, m) && Contains(m, q)
    ensures Contains(s, q)
  {
    var i :| OccursAt(s, m, i);
    var j :| OccursAt(m, q, j);
    forall k | 0 <= k < |q|
      ensures s[i + j..i + j + |q|][k] == q[k]
    {
      assert s[i + j + k] == s[i..i + |m|][j + k] == m[j..j + |q|][k];
    }
    assert s[i + j..i + j + |q|] == q;
    assert OccursAt(s, q, i + j);
  }

  /** The argument of each message that carries the quoted profile name. */
  function QuotingArgument(script: Script, event: Event): nat
  {
    match script
    case KeysScript => if event.CredentialsCurrent? || event.KeysRotated? then 2 else 1
    case KeyssScript => if event.CredentialsCurrent? || event.KeysRotated? then 3 else 2
  }

  lemma KeysMessageQuotesProfile(event: Event, ts: string, profile: string)
    ensures QuotingArgument(KeysScript, event) < |KeysMessage(event, ts, profile)|
    ensures Contains(KeysMessage(event, ts, profile)[QuotingArgument(KeysScript, event)], Quote(profile))
  {
    var q := Quote(profile);
    ContainsItself(q);
    match event {
      case CredentialsCurrent =>
      case KeysRotated =>
      case LocalCredentialsExpired =>
        ContainsInConcat("ERROR! Local credentials for ", q, " may be expired.", q);
      case ProfileNotStored =>
        ContainsInConcat("ERROR! Local credentials are not stored for ", q, ".", q);
      case SecretInvalid =>
        ContainsInConcat("ERROR! Local credentials for ", q, " are expired or otherwise invalid.", q);
    }
  }

  lemma KeyssMessageQuotesProfile(event: Event, ts: string, profile: string)
    ensures QuotingArgument(KeyssScript, event) < |KeyssMessage(event, ts, profile)|
    ensures Contains(KeyssMessage(event, ts, profile)[QuotingArgument(KeyssScript, event)], Quote(profile))
  {
    var q := Quote(profile);
    ContainsItself(q);
    match event {
      case CredentialsCurrent =>
      case KeysRotated =>
      case LocalCredentialsExpired =>
        ContainsInConcat("ERROR! Local credentials for the ", q, " profile may be expired.", q);
      case ProfileNotStored =>
        ContainsInConcat("ERROR! Local credentials are not stored for the ", q, " profile.", q);
      case SecretInvalid =>
        ContainsInConcat("ERROR! Local credentials for the ", q, " profile are expired or otherwise invalid.", q);
    }
  }

  /** Every status line names the profile it is about, in double quotes. */
  lemma LineQuotesProfile(script: Script, event: Event, clock: string, profile: string)
    ensures Contains(Line(script, event, clock, profile), Quote(profile))
  {
    var ts := Timestamp(clock);
    var args := Message(script, event, ts, profile);
    var k := QuotingArgument(script, event);
    if script.KeysScript? {
      KeysMessageQuotesProfile(event, ts, profile);
    } else {
      KeyssMessageQuotesProfile(event, ts, profile);
    }
    JoinContainsArgument(args, k);
    ContainsInConcat([], Join(args), "\n", args[k]);
    assert [] + Join(args) + "\n" == Line(script, event, clock, profile);
    ContainsTransitive(Line(script, event, clock, profile), args[k], Quote(profile));
  }

  lemma JoinOfThree(a: string, b: string, c: string)
    ensures Join([a, b, c]) == a + " " + b + " " + c
  {
    assert [a, b, c][1..] == [b, c];
    assert [b, c][1..] == [c];
    assert Join([b, c]) == b + " " + c;
  }

  lemma JoinOfFour(a: string, b: string, c: string, d: string)
    ensures Join([a, b, c, d]) == a + " " + b + " " + c + " " + d
  {
    assert [a, b, c, d][1..] == [b, c, d];
    JoinOfThree(b, c, d);
  }

  lemma JoinOfFive(a: string, b: string, c: string, d: string, e: string)
    ensures Join([a, b, c, d, e]) == a + " " + b + " " + c + " " + d + " " + e
  {
    assert [a, b, c, d, e][1..] == [b, c, d, e];
    JoinOfFour(b, c, d, e);
  }

  /** A line of rotate_upload_access_keys.py is the bracketed timestamp, a space, then the message. */
  lemma KeysLineBeginsWithStamp(event: Event, clock: string, profile: string)
    ensures var args := KeysMessage(event, Timestamp(clock), profile);
            Line(KeysScript, event, clock, profile) == Stamp(Timestamp(clock)) + " " + Join(args[1..]) + "\n"
  {
  }

  lemma PrintLineOfThreeOrMore(args: seq<string>)
    requires |args| >= 3
    ensures PrintLine(args) == args[0] + " " + args[1] + " " + Join(args[2..]) + "\n"
  {
    JoinUnfold(args);
    JoinUnfold(args[1..]);
    assert args[1..][1..] == args[2..];
  }

  /** A line of rotate_upload_access_keyss.py is a newline, a space, the bracketed timestamp, a space, then the message. */
  lemma KeyssLineBeginsWithStamp(event: Event, clock: string, profile: string)
    ensures var args := KeyssMessage(event, Timestamp(clock), profile);
            Line(KeyssScript, event, clock, profile) == "\n" + " " + Stamp(Timestamp(clock)) + " " + Join(args[2..]) + "\n"
  {
    var args := KeyssMessage(event, Timestamp(clock), profile);
    assert |args| >= 3 && args[0] == "\n" && args[1] == Stamp(Timestamp(clock));
    PrintLineOfThreeOrMore(args);
  }

  /**
   * The three outcomes of a reconcile print three different lines in
   * rotate_upload_access_keys.py, so a reader of the output can tell them apart.
   */
  lemma KeysReconcileLinesDiffer(clock: string, profile: string)
    ensures Line(KeysScript, CredentialsCurrent, clock, profile) != Line(KeysScript, KeysRotated, clock, profile)
    ensures Line(KeysScript, CredentialsCurrent, clock, profile) != Line(KeysScript, LocalCredentialsExpired, clock, profile)
    ensures Line(KeysScript, KeysRotated, clock, profile) != Line(KeysScript, LocalCredentialsExpired, clock, profile)
  {
    var ts := Timestamp(clock);
    var n := |Stamp(ts)| + 1;
    var q := Quote(profile);
    JoinOfFour(Stamp(ts), "NO CHANGES, Local credentials for ", q, " are current.");
    JoinOfFour(Stamp(ts), "KEYS ROTATED, Local credentials for ", q, " were rotated successfully.");
    JoinOfThree(Stamp(ts), "ERROR! Local credentials for " + q + " may be expired.", ContactMessage);
    var current := Line(KeysScript, CredentialsCurrent, clock, profile);
    var rotated := Line(KeysScript, KeysRotated, clock, profile);
    var expired := Line(KeysScript, LocalCredentialsExpired, clock, profile);
    assert current == Stamp(ts) + " " + "NO CHANGES, Local credentials for " + " " + q + " " + " are current." + "\n";
    assert rotated == Stamp(ts) + " " + "KEYS ROTATED, Local credentials for " + " " + q + " " + " were rotated successfully." + "\n";
    assert expired == Stamp(ts) + " " + ("ERROR! Local credentials for " + q + " may be expired.") + " " + ContactMessage + "\n";
    assert current[n] == 'N';
    assert (Stamp(ts) + " " + "KEYS ROTATED, Local credentials for ")[n] == 'K';
    assert rotated[n] == 'K';
    assert expired[n] == 'E';
  }

  /** The same for rotate_upload_access_keyss.py, whose two successful lines share their first words. */
  lemma KeyssReconcileLinesDiffer(clock: string, profile: string)
    ensures Line(KeyssScript, CredentialsCurrent, clock, profile) != Line(KeyssScript, KeysRotated, clock, profile)
    ensures Line(KeyssScript, CredentialsCurrent, clock, profile) != Line(KeyssScript, LocalCredentialsExpired, clock, profile)
    ensures Line(KeyssScript, KeysRotated, clock, profile) != Line(KeyssScript, LocalCredentialsExpired, clock, profile)
  {
    var ts := Timestamp(clock);
    var q := Quote(profile);
    var x := "\n" + " " + Stamp(ts) + " ";
    var ok := x + "OK! Local credentials for the" + " " + q + " ";
    JoinOfFive("\n", Stamp(ts), "OK! Local credentials for the", q, "profile are the latest currently available.\n");
    JoinOfFive("\n", Stamp(ts), "OK! Local credentials for the", q, "profile were updated successfully.\n");
    JoinOfFive("\n", Stamp(ts), "ERROR! Local credentials for the " + q + " profile may be expired.", ContactMessage, "\n");
    var current := Line(KeyssScript, CredentialsCurrent, clock, profile);
    var rotated := Line(KeyssScript, KeysRotated, clock, profile);
    var expired := Line(KeyssScript, LocalCredentialsExpired, clock, profile);
    assert current == ok + "profile are the latest currently available.\n" + "\n";
    assert rotated == ok + "profile were updated successfully.\n" + "\n";
    assert expired == x + ("ERROR! Local credentials for the " + q + " profile may be expired.") + " " + ContactMessage + " " + "\n" + "\n";
    assert (x + "OK! Local credentials for the")[|x|] == 'O';
    assert current[|x|] == 'O';
    assert rotated[|x|] == 'O';
    assert (x + ("ERROR! Local credentials for the " + q + " profile may be expired."))[|x|] == 'E';
    assert expired[|x|] == 'E';
    assert (ok + "profile are the latest currently available.\n")[|ok| + 8] == 'a';
    assert (ok + "profile were updated successfully.\n")[|ok| + 8] == 'w';
    assert current[|ok| + 8] == 'a';
    assert rotated[|ok| + 8] == 'w';
  }
}
