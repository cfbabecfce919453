/** Message composition for the two Twilio alert channels: the SMS text of
    TwilioSMS._make_message and the spoken text of PHONE_TEMPLATE. Both are
    pure functions of a snapshot of the monitored service. */
module Composer {
  import opened Text
  import opened Sequences

  /** Status values of the host's Service model, compared as strings. */
  const PassingStatus := "PASSING"
  const WarningStatus := "WARNING"
  const CriticalStatus := "CRITICAL"

  /** Importance values of a failing check that the SMS lists. */
  const CriticalImportance := "CRITICAL"
  const ErrorImportance := "ERROR"

  /** TwilioSMS._max_length: the SMS character budget. */
  const MaxLength := 160

  /** A failing check as the host reports it. */
  datatype Check = Check(name: string, importance: string)

  /** The read-only snapshot of a monitored service handed to a channel:
      overall_status, old_overall_status and all_failing_checks(). */
  datatype Service = Service(
    name: string,
    status: string,
    oldStatus: string,
    failingChecks: seq<Check>)

  // ---------------------------------------------------------------------
  // Selecting and listing the failing checks
  // ---------------------------------------------------------------------

  /** The checks of the given importance, in their original order. */
  function Select(checks: seq<Check>, importance: string): (r: seq<Check>)
    ensures |r| <= |checks|
    ensures forall k :: 0 <= k < |r| ==> r[k].importance == importance
  {
    if checks == [] then []
    else
      (if checks[0].importance == importance then [checks[0]] else [])
      + Select(checks[1..], importance)
  }

  /** The checks the SMS reports: CRITICAL ones, then ERROR ones. */
  function Reported(checks: seq<Check>): seq<Check>
  {
    Select(checks, CriticalImportance) + Select(checks, ErrorImportance)
  }

  /** One "- name" bullet line per check, in order. */
  function Bullets(checks: seq<Check>): seq<string>
  {
    seq(|checks|, k requires 0 <= k < |checks| => "- " + checks[k].name)
  }

  /** The names of the checks, in order. */
  function Names(checks: seq<Check>): seq<string>
  {
    seq(|checks|, k requires 0 <= k < |checks| => checks[k].name)
  }

  /** Each bullet adds its two-character marker to its check's name. */
  lemma {:induction false} BulletsLength(checks: seq<Check>)
    ensures |Bullets(checks)| == |checks|
    ensures TotalLength(Bullets(checks)) == TotalLength(Names(checks)) + 2 * |checks|
  {
    if checks != [] {
      assert Bullets(checks)[1..] == Bullets(checks[1..]);
      assert Names(checks)[1..] == Names(checks[1..]);
      BulletsLength(checks[1..]);
    }
  }

  /** Bulleting a concatenation bullets each part. */
  lemma BulletsAppend(a: seq<Check>, b: seq<Check>)
    ensures Bullets(a + b) == Bullets(a) + Bullets(b)
  {
  }

  /** The bulleted list of reported checks, one per line. */
  function ListBody(checks: seq<Check>): string
  {
    JoinLines(Bullets(Reported(checks)))
  }

  /** The number of checks of importance CRITICAL or ERROR, counted
      independently of Select. */
  function CountFailing(checks: seq<Check>): nat
  {
    if checks == [] then 0
    else
      (if checks[0].importance in {CriticalImportance, ErrorImportance} then 1 else 0)
      + CountFailing(checks[1..])
  }

  /** The single line that replaces a list too long for the budget. */
  function FallbackBody(count: nat): string
  {
    "- " + Decimal(count) + " checks failing"
  }

  // ---------------------------------------------------------------------
  // The SMS text
  // ---------------------------------------------------------------------

  /** The message for a service that is passing again. */
  function RecoveryMessage(name: string): string
  {
    "<" + name + "> has returned to normal!"
  }

  /** The first line of an alert. */
  function Prefix(service: Service): string
  {
    "<" + service.name + "> is reporting " + service.status
  }

  /** The last line of an alert: the service's detail page, built from the
      configured scheme and host and the routed path. */
  function DetailUrl(scheme: string, host: string, path: string): string
  {
    scheme + "://" + host + path
  }

  /** What the budget leaves for the body once the prefix, an empty middle
      line and the suffix are joined. An int: it is negative when the
      prefix and suffix alone are too long. */
  function Remaining(prefix: string, suffix: string): int
  {
    MaxLength - |JoinLines([prefix, "", suffix])|
  }

  /** TwilioSMS._make_message: the SMS text for a service snapshot, given
      the parts of its detail-page URL. */
  function MakeMessage(service: Service, scheme: string, host: string, path: string): string
  {
    if service.status == PassingStatus then
      RecoveryMessage(service.name)
    else
      var prefix := Prefix(service);
      var suffix := DetailUrl(scheme, host, path);
      var criticals := Bullets(Select(service.failingChecks, CriticalImportance));
      var errors := Bullets(Select(service.failingChecks, ErrorImportance));
      var listed := JoinLines(criticals + errors);
      var body :=
        if |listed| > Remaining(prefix, suffix)
        then FallbackBody(|criticals| + |errors|)
        else listed;
      JoinLines([prefix, body, suffix])
  }

  // ---------------------------------------------------------------------
  // Properties of the selection
  // ---------------------------------------------------------------------

  /** Selecting from a concatenation selects from each part, keeping the
      parts' order: Select is an order-preserving filter. */
  lemma {:induction false} SelectAppend(a: seq<Check>, b: seq<Check>, importance: string)
    ensures Select(a + b, importance) == Select(a, importance) + Select(b, importance)
  {
    if a == [] {
      assert a + b == b;
    } else {
      assert (a + b)[1..] == a[1..] + b;
      SelectAppend(a[1..], b, importance);
    }
  }

  /** The selected checks keep their relative order in the input. */
  lemma {:induction false} SelectKeepsOrder(checks: seq<Check>, importance: string)
    ensures IsSubsequence(Select(checks, importance), checks)
  {
    if checks != [] {
      SelectKeepsOrder(checks[1..], importance);
      var rest := Select(checks[1..], importance);
      if checks[0].importance == importance {
        assert Select(checks, importance) == [checks[0]] + rest;
        assert ([checks[0]] + rest)[1..] == rest;
      } else if rest != [] {
        assert Select(checks, importance) == rest;
      }
    }
  }

  /** A check is selected exactly when it is among the checks and has the
      importance asked for. */
  lemma {:induction false} SelectMembership(checks: seq<Check>, importance: string, c: Check)
    ensures c in Select(checks, importance) <==> c in checks && c.importance == importance
  {
    if checks != [] {
      SelectMembership(checks[1..], importance, c);
      assert checks == [checks[0]] + checks[1..];
    }
  }

  /** The number of checks selected for one importance plus the number
      selected for the other is the number of CRITICAL or ERROR checks. */
  lemma {:induction false} ReportedCount(checks: seq<Check>)
    ensures |Reported(checks)| == CountFailing(checks)
  {
    if checks != [] {
      ReportedCount(checks[1..]);
    }
  }

  /** The reported checks are the CRITICAL and ERROR ones, each CRITICAL
      check comes before each ERROR check, and nothing else is reported. */
  lemma ReportedOrder(checks: seq<Check>)
    ensures forall k :: 0 <= k < |Reported(checks)| ==>
      Reported(checks)[k].importance in {CriticalImportance, ErrorImportance}
    ensures forall i, j ::
      0 <= i < j < |Reported(checks)| && Reported(checks)[i].importance == ErrorImportance
      ==> Reported(checks)[j].importance == ErrorImportance
    ensures forall c :: c in Reported(checks) <==>
      c in checks && c.importance in {CriticalImportance, ErrorImportance}
  {
    var r := Reported(checks);
    var crit := Select(checks, CriticalImportance);
    forall i, j | 0 <= i < j < |r| && r[i].importance == ErrorImportance
      ensures r[j].importance == ErrorImportance
    {
      assert i >= |crit|;
    }
    forall c
      ensures c in r <==> c in checks && c.importance in {CriticalImportance, ErrorImportance}
    {
      SelectMembership(checks, CriticalImportance, c);
      SelectMembership(checks, ErrorImportance, c);
    }
  }

  // ---------------------------------------------------------------------
  // Properties of the SMS text
  // ---------------------------------------------------------------------

  /** A passing service gets the recovery sentence, whatever its failing
      checks, its previous status and its address are. */
  lemma PassingGivesRecovery(service: Service, scheme: string, host: string, path: string,
                             otherChecks: seq<Check>, otherOld: string)
    requires service.status == PassingStatus
    ensures MakeMessage(service, scheme, host, path) == "<" + service.name + "> has returned to normal!"
    ensures MakeMessage(service.(failingChecks := otherChecks, oldStatus := otherOld), "", "", "")
         == MakeMessage(service, scheme, host, path)
  {
  }

  /** The recovery sentence is not length-checked: it fits the budget
      exactly when the name has at most 134 characters. */
  lemma RecoveryLength(name: string)
    ensures |RecoveryMessage(name)| == |name| + 26
    ensures |RecoveryMessage(name)| <= MaxLength <==> |name| <= 134
  {
  }

  /** An alert joins three parts, the prefix, a body and the detail URL,
      with one newline between neighbours, and the budget left for the body
      is what the prefix, the URL and those two newlines leave. */
  lemma AlertShape(service: Service, scheme: string, host: string, path: string,
                   body: string)
    ensures JoinLines([Prefix(service), body, DetailUrl(scheme, host, path)])
         == Prefix(service) + "\n" + body + "\n" + DetailUrl(scheme, host, path)
    ensures Remaining(Prefix(service), DetailUrl(scheme, host, path))
         == MaxLength - (|Prefix(service)| + 2 + |DetailUrl(scheme, host, path)|)
  {
    var prefix, suffix := Prefix(service), DetailUrl(scheme, host, path);
    JoinThreeLines(prefix, body, suffix);
    JoinThreeLines(prefix, "", suffix);
  }

  /** When the list of checks fits in what the prefix and suffix leave of
      the budget, it is kept, and then the whole message fits the budget. */
  lemma ListKeptWhenItFits(service: Service, scheme: string, host: string, path: string)
    requires service.status != PassingStatus
    requires |ListBody(service.failingChecks)|
          <= MaxLength - (|Prefix(service)| + 2 + |DetailUrl(scheme, host, path)|)
    ensures MakeMessage(service, scheme, host, path)
         == Prefix(service) + "\n" + ListBody(service.failingChecks) + "\n" + DetailUrl(scheme, host, path)
    ensures |MakeMessage(service, scheme, host, path)| <= MaxLength
  {
    var checks := service.failingChecks;
    BulletsAppend(Select(checks, CriticalImportance), Select(checks, ErrorImportance));
    AlertShape(service, scheme, host, path, ListBody(checks));
  }

  /** When the list does not fit, it is replaced by the count of CRITICAL
      and ERROR checks. */
  lemma ListReplacedWhenTooLong(service: Service, scheme: string, host: string, path: string)
    requires service.status != PassingStatus
    requires |ListBody(service.failingChecks)|
          > MaxLength - (|Prefix(service)| + 2 + |DetailUrl(scheme, host, path)|)
    ensures MakeMessage(service, scheme, host, path)
         == Prefix(service) + "\n" + FallbackBody(CountFailing(service.failingChecks)) + "\n"
            + DetailUrl(scheme, host, path)
  {
    var checks := service.failingChecks;
    BulletsAppend(Select(checks, CriticalImportance), Select(checks, ErrorImportance));
    AlertShape(service, scheme, host, path, FallbackBody(CountFailing(checks)));
    ReportedCount(checks);
  }

  /** For any status but PASSING the message is the prefix, then the list
      of checks or, when the list overruns what the prefix and URL leave,
      the count line, then the detail URL. */
  lemma AlertLayout(service: Service, scheme: string, host: string, path: string)
    requires service.status != PassingStatus
    ensures MakeMessage(service, scheme, host, path)
         == Prefix(service) + "\n"
            + (if |ListBody(service.failingChecks)|
                  > MaxLength - (|Prefix(service)| + 2 + |DetailUrl(scheme, host, path)|)
               then FallbackBody(CountFailing(service.failingChecks))
               else ListBody(service.failingChecks))
            + "\n" + DetailUrl(scheme, host, path)
  {
    if |ListBody(service.failingChecks)|
       > MaxLength - (|Prefix(service)| + 2 + |DetailUrl(scheme, host, path)|) {
      ListReplacedWhenTooLong(service, scheme, host, path);
    } else {
      ListKeptWhenItFits(service, scheme, host, path);
    }
  }

  /** Every message opens with the service's name in angle brackets, and
      an alert opens with its prefix line and closes with the line of the
      detail URL. */
  lemma MessageFrame(service: Service, scheme: string, host: string, path: string)
    ensures StartsWith(MakeMessage(service, scheme, host, path), "<" + service.name + ">")
    ensures service.status != PassingStatus ==>
      StartsWith(MakeMessage(service, scheme, host, path), Prefix(service) + "\n") &&
      EndsWith(MakeMessage(service, scheme, host, path), "\n" + DetailUrl(scheme, host, path))
  {
    var msg := MakeMessage(service, scheme, host, path);
    var name := "<" + service.name + ">";
    if service.status == PassingStatus {
      StartsWithConcat(name, " has returned to normal!", name);
    } else {
      var prefix, suffix := Prefix(service), DetailUrl(scheme, host, path);
      var body :=
        if |ListBody(service.failingChecks)| > MaxLength - (|prefix| + 2 + |suffix|)
        then FallbackBody(CountFailing(service.failingChecks))
        else ListBody(service.failingChecks);
      AlertLayout(service, scheme, host, path);
      JoinThreeLines(prefix, body, suffix);
      JoinThreeFrame(prefix, body, suffix);
      StartsWithConcat(name, " is reporting " + service.status, name);
      StartsWithConcat(prefix, "\n", name);
      StartsWithConcat(msg[..|prefix| + 1], msg[|prefix| + 1..], name);
    }
  }

  /** A non-empty list is as long as the names of the reported checks plus
      three characters per check ("- " and a newline), less the newline the
      last line does not have. */
  lemma ListBodyLength(checks: seq<Check>)
    requires |Reported(checks)| >= 1
    ensures |ListBody(checks)| == TotalLength(Names(Reported(checks))) + 3 * |Reported(checks)| - 1
  {
    BulletsLength(Reported(checks));
    JoinLinesLength(Bullets(Reported(checks)));
  }

  /** The fallback line is not length-checked either: a message that uses
      it fits the budget exactly when the prefix, the URL and the rendered
      count leave room for it. */
  lemma FallbackLength(service: Service, scheme: string, host: string, path: string)
    requires service.status != PassingStatus
    requires |ListBody(service.failingChecks)|
          > MaxLength - (|Prefix(service)| + 2 + |DetailUrl(scheme, host, path)|)
    ensures |MakeMessage(service, scheme, host, path)| <= MaxLength <==>
      |Prefix(service)| + |DetailUrl(scheme, host, path)|
        + |Decimal(CountFailing(service.failingChecks))| + 19 <= MaxLength
  {
    ListReplacedWhenTooLong(service, scheme, host, path);
  }

  /** With no CRITICAL or ERROR checks the list is empty, yet it is still
      replaced when the prefix and URL alone overrun the budget. */
  lemma NoFailingChecksOverBudget(service: Service, scheme: string, host: string, path: string)
    requires service.status != PassingStatus
    requires CountFailing(service.failingChecks) == 0
    requires |Prefix(service)| + 2 + |DetailUrl(scheme, host, path)| > MaxLength
    ensures MakeMessage(service, scheme, host, path)
         == Prefix(service) + "\n" + "- 0 checks failing" + "\n" + DetailUrl(scheme, host, path)
  {
    ListReplacedWhenTooLong(service, scheme, host, path);
    FallbackZero();
  }

  /** The fallback line for no failing checks. */
  lemma FallbackZero()
    ensures FallbackBody(0) == "- 0 checks failing"
  {
    assert Decimal(0) == "0";
  }

  /** The count in a fallback line reads back as the number of CRITICAL and
      ERROR checks. */
  lemma FallbackCountReadable(count: nat)
    ensures var line := FallbackBody(count);
      |line| == |Decimal(count)| + 17 &&
      AllDigits(line[2..|line| - 15]) && ParseDecimal(line[2..|line| - 15]) == count
  {
    var line := FallbackBody(count);
    assert line[2..|line| - 15] == Decimal(count);
    ParseDecimalInverse(count);
  }

  /** When the list is kept and nothing contains a newline, the lines of
      the message are the prefix, one bullet per reported check, and the
      detail URL. */
  lemma MessageLines(service: Service, scheme: string, host: string, path: string)
    requires service.status != PassingStatus
    requires |ListBody(service.failingChecks)|
          <= MaxLength - (|Prefix(service)| + 2 + |DetailUrl(scheme, host, path)|)
    requires |Reported(service.failingChecks)| >= 1
    requires NoNewline(Prefix(service)) && NoNewline(DetailUrl(scheme, host, path))
    requires forall c :: c in service.failingChecks ==> NoNewline(c.name)
    ensures SplitLines(MakeMessage(service, scheme, host, path))
         == [Prefix(service)] + Bullets(Reported(service.failingChecks)) + [DetailUrl(scheme, host, path)]
  {
    var checks := service.failingChecks;
    var lines := Bullets(Reported(checks));
    ListKeptWhenItFits(service, scheme, host, path);
    forall k | 0 <= k < |lines| ensures NoNewline(lines[k]) {
      ReportedOrder(checks);
      assert Reported(checks)[k] in checks;
    }
    SplitJoinLines(lines);
    SplitThreeParts(Prefix(service), ListBody(checks), DetailUrl(scheme, host, path));
  }

  // ---------------------------------------------------------------------
  // The spoken text
  // ---------------------------------------------------------------------

  /** The two fixed parts of PHONE_TEMPLATE around the service name. */
  const PhoneTemplateHead := "This is an urgent message from reddit monitoring.  The "
  const PhoneTemplateTail :=
    " service is reporting critical errors.  Please check Cabot immediately. This message repeats."

  /** PHONE_TEMPLATE.format(service_name=name): the name fills the one slot
      of the template and can be read back from it. */
  function PhoneScript(name: string): (script: string)
    ensures |script| == |PhoneTemplateHead| + |name| + |PhoneTemplateTail|
    ensures script[|PhoneTemplateHead|..|script| - |PhoneTemplateTail|] == name
  {
    PhoneTemplateHead + name + PhoneTemplateTail
  }

  /** Every script opens and closes with the fixed parts of the template,
      and two services never share a script. */
  lemma PhoneScriptNamesService(name: string, other: string)
    ensures var script := PhoneScript(name);
      script[..|PhoneTemplateHead|] == PhoneTemplateHead &&
      script[|script| - |PhoneTemplateTail|..] == PhoneTemplateTail
    ensures PhoneScript(name) == PhoneScript(other) ==> name == other
  {
  }
}
