/** The two alert channels: TwilioSMS.send_alert and
    TwilioPhoneCall.send_alert. Each channel object keeps a log of the
    requests it put to the Twilio transport; the transport's answer and the
    document-staging upload are oracles passed in by the caller. */
module Dispatch {
  import opened Wrappers
  import opened Composer
  import opened Recipients

  /** The Twilio credentials and sender number read from the environment
      by _make_twilio_client. */
  datatype Config = Config(accountSid: string, authToken: string, outgoingNumber: string)

  /** One request to the Twilio REST client: sms.messages.create or
      calls.create. */
  datatype Request =
    | Sms(to: string, sender: string, body: string)
    | Call(to: string, sender: string, url: string, httpMethod: string)

  /** A request together with the transport's answer; false stands for the
      exception that the channel catches and logs. */
  datatype Attempt = Attempt(request: Request, accepted: bool)

  /** The TwiML document handed to staging: one <Say> of the script. */
  datatype Twiml = Say(text: string, voice: string, loops: nat)

  /** The HTTP method Twilio uses to fetch the staged TwiML. */
  const FetchMethod := "GET"

  // ---------------------------------------------------------------------
  // What each channel is to do
  // ---------------------------------------------------------------------

  /** The SMS channel is silent only on the step from PASSING to WARNING. */
  predicate SmsAlertable(service: Service)
  {
    !(service.oldStatus == PassingStatus && service.status == WarningStatus)
  }

  /** The voice channel acts only on a CRITICAL service. */
  predicate CallAlertable(service: Service)
  {
    service.status == CriticalStatus
  }

  /** One SMS request per mobile, in order, all with the same text. */
  function SmsRequests(mobiles: seq<string>, sender: string, body: string): seq<Request>
  {
    seq(|mobiles|, k requires 0 <= k < |mobiles| => Sms(mobiles[k], sender, body))
  }

  /** One call request per mobile, in order, all fetching the same URL. */
  function CallRequests(mobiles: seq<string>, sender: string, url: string): seq<Request>
  {
    seq(|mobiles|, k requires 0 <= k < |mobiles| => Call(mobiles[k], sender, url, FetchMethod))
  }

  /** Each request tried once, with the transport's answer recorded. */
  function Attempts(requests: seq<Request>, transport: Request -> bool): seq<Attempt>
  {
    seq(|requests|, k requires 0 <= k < |requests| => Attempt(requests[k], transport(requests[k])))
  }

  /** The requests recorded in a log, in order. */
  function Requested(log: seq<Attempt>): seq<Request>
  {
    seq(|log|, k requires 0 <= k < |log| => log[k].request)
  }

  /** The requests whose attempt the transport accepted, in order. */
  function Accepted(log: seq<Attempt>): seq<Request>
  {
    if log == [] then []
    else (if log[0].accepted then [log[0].request] else []) + Accepted(log[1..])
  }

  /** A failure never stops the loop: whatever the transport answers, the
      log records every request, in order, while the accepted ones are
      exactly those the transport accepts. */
  lemma {:induction false} AttemptsRecordEveryRequest(requests: seq<Request>, transport: Request -> bool)
    ensures Requested(Attempts(requests, transport)) == requests
    ensures forall r :: r in Accepted(Attempts(requests, transport)) <==>
      r in requests && transport(r)
  {
    if requests != [] {
      var log := Attempts(requests, transport);
      assert log[1..] == Attempts(requests[1..], transport);
      AttemptsRecordEveryRequest(requests[1..], transport);
      assert requests == [requests[0]] + requests[1..];
    }
  }

  /** Trying a concatenation of requests tries each part in turn. */
  lemma AttemptsAppend(a: seq<Request>, b: seq<Request>, transport: Request -> bool)
    ensures Attempts(a + b, transport) == Attempts(a, transport) + Attempts(b, transport)
  {
  }

  /** The SMS requests for a concatenation of mobiles are those of each
      part in turn. */
  lemma SmsRequestsAppend(a: seq<string>, b: seq<string>, sender: string, body: string)
    ensures SmsRequests(a + b, sender, body) == SmsRequests(a, sender, body) + SmsRequests(b, sender, body)
  {
  }

  /** The call requests for a concatenation of mobiles are those of each
      part in turn. */
  lemma CallRequestsAppend(a: seq<string>, b: seq<string>, sender: string, url: string)
    ensures CallRequests(a + b, sender, url) == CallRequests(a, sender, url) + CallRequests(b, sender, url)
  {
  }

  /** The requests TwilioSMS.send_alert makes. */
  function SmsPlan(service: Service, users: seq<UserId>, dutyOfficers: seq<UserId>,
                   store: seq<Record>, scheme: string, host: string, path: string,
                   config: Config): (plan: seq<Request>)
    ensures |plan| <= |store|
    ensures forall k :: 0 <= k < |plan| ==>
      plan[k].Sms? && plan[k].sender == config.outgoingNumber && StartsWithPlus(plan[k].to)
  {
    if !SmsAlertable(service) then []
    else SmsRequests(Mobiles(store, users + dutyOfficers), config.outgoingNumber,
                     MakeMessage(service, scheme, host, path))
  }

  /** The document TwilioPhoneCall stages: the script said by the voice
      "alice", three times. */
  function CallScript(service: Service): (doc: Twiml)
    ensures doc.voice == "alice" && doc.loops == 3
    ensures |doc.text| == |PhoneTemplateHead| + |service.name| + |PhoneTemplateTail|
    ensures doc.text[|PhoneTemplateHead|..|doc.text| - |PhoneTemplateTail|] == service.name
  {
    Say(PhoneScript(service.name), "alice", 3)
  }

  /** The requests TwilioPhoneCall.send_alert makes, given what staging
      answers for the script. An empty URL counts as no URL. */
  function CallPlan(service: Service, dutyOfficers: seq<UserId>, store: seq<Record>,
                    stage: Twiml -> Option<string>, config: Config): (plan: seq<Request>)
    ensures |plan| <= |store|
    ensures plan != [] ==> CallAlertable(service)
    ensures forall k :: 0 <= k < |plan| ==>
      plan[k].Call? && plan[k].sender == config.outgoingNumber && StartsWithPlus(plan[k].to) &&
      plan[k].url != "" && plan[k].httpMethod == FetchMethod
  {
    if !CallAlertable(service) then []
    else
      match stage(CallScript(service))
      case None => []
      case Some(url) =>
        if url == "" then []
        else CallRequests(Mobiles(store, dutyOfficers), config.outgoingNumber, url)
  }

  /** Trying one more request appends one attempt to the log. */
  lemma AttemptsSnoc(requests: seq<Request>, r: Request, transport: Request -> bool)
    ensures Attempts(requests + [r], transport)
         == Attempts(requests, transport) + [Attempt(r, transport(r))]
  {
  }

  /** Extending the mobiles by one extends the SMS requests by one. */
  lemma SmsRequestsSnoc(mobiles: seq<string>, i: nat, sender: string, body: string)
    requires i < |mobiles|
    ensures SmsRequests(mobiles[..i + 1], sender, body)
         == SmsRequests(mobiles[..i], sender, body) + [Sms(mobiles[i], sender, body)]
  {
  }

  /** Extending the mobiles by one extends the call requests by one. */
  lemma CallRequestsSnoc(mobiles: seq<string>, i: nat, sender: string, url: string)
    requires i < |mobiles|
    ensures CallRequests(mobiles[..i + 1], sender, url)
         == CallRequests(mobiles[..i], sender, url) + [Call(mobiles[i], sender, url, FetchMethod)]
  {
  }

  // ---------------------------------------------------------------------
  // The channels
  // ---------------------------------------------------------------------

  /** The SMS channel, with the log of what it asked Twilio to send. */
  class TwilioSms {
    var attempts: seq<Attempt>

    constructor ()
      ensures attempts == []
    {
      attempts := [];
    }

    /** send_alert: unless suppressed, text every resolved number of the
        users and duty officers, going on past a failed send. */
    method SendAlert(service: Service, users: seq<UserId>, dutyOfficers: seq<UserId>,
                     store: seq<Record>, scheme: string, host: string, path: string,
                     config: Config, transport: Request -> bool)
      modifies this
      ensures attempts == old(attempts)
        + Attempts(SmsPlan(service, users, dutyOfficers, store, scheme, host, path, config), transport)
    {
      if service.oldStatus == PassingStatus && service.status == WarningStatus {
        return;
      }
      var message := MakeMessage(service, scheme, host, path);
      var mobiles := Mobiles(store, users + dutyOfficers);
      SendEach(mobiles, config.outgoingNumber, message, transport);
    }

    /** The loop of send_alert: one sms.messages.create per mobile, a
        failure caught and the loop carried on. */
    method SendEach(mobiles: seq<string>, sender: string, message: string,
                    transport: Request -> bool)
      modifies this`attempts
      ensures attempts == old(attempts) + Attempts(SmsRequests(mobiles, sender, message), transport)
    {
      for i := 0 to |mobiles|
        invariant attempts == old(attempts) + Attempts(SmsRequests(mobiles[..i], sender, message), transport)
      {
        var request := Sms(mobiles[i], sender, message);
        var accepted := transport(request);
        SmsRequestsSnoc(mobiles, i, sender, message);
        AttemptsSnoc(SmsRequests(mobiles[..i], sender, message), request, transport);
        attempts := attempts + [Attempt(request, accepted)];
      }
      assert mobiles[..|mobiles|] == mobiles;
    }
  }

  /** The voice channel, with the documents it staged and the log of what
      it asked Twilio to call. */
  class TwilioPhoneCall {
    var uploads: seq<Twiml>
    var attempts: seq<Attempt>

    constructor ()
      ensures uploads == [] && attempts == []
    {
      uploads := [];
      attempts := [];
    }

    /** send_alert: for a CRITICAL service, stage the script, and if that
        gives a URL, call every resolved duty officer with it, going on
        past a failed call. Plain users are never called. */
    method SendAlert(service: Service, users: seq<UserId>, dutyOfficers: seq<UserId>,
                     store: seq<Record>, config: Config,
                     stage: Twiml -> Option<string>, transport: Request -> bool)
      modifies this
      ensures uploads == if CallAlertable(service) then old(uploads) + [CallScript(service)] else old(uploads)
      ensures attempts == old(attempts)
        + Attempts(CallPlan(service, dutyOfficers, store, stage, config), transport)
    {
      if service.status != CriticalStatus {
        return;
      }
      var message := PhoneScript(service.name);
      var response := Say(message, "alice", 3);
      uploads := uploads + [response];
      var callbackUrl := stage(response);
      if callbackUrl.None? || callbackUrl.value == "" {
        assert CallPlan(service, dutyOfficers, store, stage, config) == [];
        return;
      }
      var url := callbackUrl.value;
      var mobiles := Mobiles(store, dutyOfficers);
      assert CallPlan(service, dutyOfficers, store, stage, config)
          == CallRequests(mobiles, config.outgoingNumber, url);
      CallEach(mobiles, config.outgoingNumber, url, transport);
    }

    /** The loop of send_alert: one calls.create per mobile, a failure
        caught and the loop carried on. */
    method CallEach(mobiles: seq<string>, sender: string, url: string,
                    transport: Request -> bool)
      modifies this`attempts
      ensures attempts == old(attempts) + Attempts(CallRequests(mobiles, sender, url), transport)
    {
      for i := 0 to |mobiles|
        invariant attempts == old(attempts) + Attempts(CallRequests(mobiles[..i], sender, url), transport)
      {
        var request := Call(mobiles[i], sender, url, FetchMethod);
        var accepted := transport(request);
        CallRequestsSnoc(mobiles, i, sender, url);
        AttemptsSnoc(CallRequests(mobiles[..i], sender, url), request, transport);
        attempts := attempts + [Attempt(request, accepted)];
      }
      assert mobiles[..|mobiles|] == mobiles;
    }
  }

  // ---------------------------------------------------------------------
  // Properties of the dispatch decisions
  // ---------------------------------------------------------------------

  /** The SMS channel makes no request exactly on PASSING to WARNING, when
      anyone has a number; otherwise it texts each resolved mobile once, in
      order, with the composed message. */
  lemma SmsOnePerRecipient(service: Service, users: seq<UserId>, dutyOfficers: seq<UserId>,
                           store: seq<Record>, scheme: string, host: string, path: string,
                           config: Config)
    ensures var plan := SmsPlan(service, users, dutyOfficers, store, scheme, host, path, config);
      var mobiles := Mobiles(store, users + dutyOfficers);
      (plan == [] <==> !SmsAlertable(service) || mobiles == []) &&
      (SmsAlertable(service) ==>
        |plan| == |mobiles| &&
        forall k :: 0 <= k < |plan| ==>
          plan[k] == Sms(mobiles[k], config.outgoingNumber, MakeMessage(service, scheme, host, path)))
  {
  }

  /** Every registered number of a user or duty officer is texted when the
      SMS channel is not suppressed. */
  lemma SmsReachesEveryRegisteredNumber(service: Service, users: seq<UserId>,
                                        dutyOfficers: seq<UserId>, store: seq<Record>,
                                        scheme: string, host: string, path: string,
                                        config: Config, j: nat)
    requires SmsAlertable(service)
    requires j < |store| && Usable(store[j])
    requires store[j].user in users || store[j].user in dutyOfficers
    ensures exists k ::
      0 <= k < |SmsPlan(service, users, dutyOfficers, store, scheme, host, path, config)| &&
      SmsPlan(service, users, dutyOfficers, store, scheme, host, path, config)[k].to
        == Prefixed(store[j].phoneNumber.value)
  {
    var m := Prefixed(store[j].phoneNumber.value);
    MobilesMembership(store, users + dutyOfficers, m);
    var mobiles := Mobiles(store, users + dutyOfficers);
    var k :| 0 <= k < |mobiles| && mobiles[k] == m;
    assert SmsPlan(service, users, dutyOfficers, store, scheme, host, path, config)[k].to == m;
  }

  /** The voice channel makes no request unless the service is CRITICAL
      and staging gives a non-empty URL; then it calls each duty officer's
      mobile once, in order, fetching that URL with GET. */
  lemma CallOnePerDutyOfficer(service: Service, dutyOfficers: seq<UserId>, store: seq<Record>,
                              stage: Twiml -> Option<string>, config: Config)
    ensures var plan := CallPlan(service, dutyOfficers, store, stage, config);
      var staged := stage(CallScript(service));
      var mobiles := Mobiles(store, dutyOfficers);
      (!CallAlertable(service) ==> plan == []) &&
      (staged.None? || staged.value == "" ==> plan == []) &&
      (CallAlertable(service) && staged.Some? && staged.value != "" ==>
        |plan| == |mobiles| &&
        forall k :: 0 <= k < |plan| ==>
          plan[k] == Call(mobiles[k], config.outgoingNumber, staged.value, FetchMethod))
  {
  }

  /** Every number the voice channel calls belongs to a duty officer. */
  lemma CallsOnlyDutyOfficers(service: Service, dutyOfficers: seq<UserId>, store: seq<Record>,
                              stage: Twiml -> Option<string>, config: Config, k: nat)
    requires k < |CallPlan(service, dutyOfficers, store, stage, config)|
    ensures exists j ::
      0 <= j < |store| && store[j].user in dutyOfficers && Usable(store[j]) &&
      CallPlan(service, dutyOfficers, store, stage, config)[k].to
        == Prefixed(store[j].phoneNumber.value)
  {
    var plan := CallPlan(service, dutyOfficers, store, stage, config);
    var mobiles := Mobiles(store, dutyOfficers);
    assert plan[k].to == mobiles[k];
    MobilesMembership(store, dutyOfficers, mobiles[k]);
  }

  /** Everyone the voice channel would call, the SMS channel texts too. */
  lemma CalledNumbersAreTexted(service: Service, users: seq<UserId>, dutyOfficers: seq<UserId>,
                               store: seq<Record>, scheme: string, host: string, path: string,
                               stage: Twiml -> Option<string>, config: Config, k: nat)
    requires k < |CallPlan(service, dutyOfficers, store, stage, config)|
    ensures exists i ::
      0 <= i < |SmsPlan(service, users, dutyOfficers, store, scheme, host, path, config)| &&
      SmsPlan(service, users, dutyOfficers, store, scheme, host, path, config)[i].to
        == CallPlan(service, dutyOfficers, store, stage, config)[k].to
  {
    CallsOnlyDutyOfficers(service, dutyOfficers, store, stage, config, k);
    var j :| 0 <= j < |store| && store[j].user in dutyOfficers && Usable(store[j])
      && CallPlan(service, dutyOfficers, store, stage, config)[k].to
         == Prefixed(store[j].phoneNumber.value);
    assert SmsAlertable(service) by {
      assert service.status == CriticalStatus;
    }
    SmsReachesEveryRegisteredNumber(service, users, dutyOfficers, store, scheme, host, path, config, j);
  }
}
