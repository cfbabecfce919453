# Twilio alert channels for Cabot, modelled in Dafny

This project models the core of `cabot_alert_twilio`, a Cabot alert plugin.
Cabot calls the plugin when a monitored service changes health status. The
plugin then sends SMS alerts and makes voice calls through Twilio. The model
covers four pieces of the plugin's logic:

- **The SMS composer** (`TwilioSMS._make_message`), in `composer.dfy`.
  A passing service gets a fixed recovery sentence. Any other status gets a
  three-line alert: a prefix naming the service and its status, a bulleted
  list of the CRITICAL checks followed by the ERROR checks, and the URL of
  the service's detail page. The list is replaced by `- N checks failing`
  when it does not fit in what the 160-character budget leaves.
- **The spoken script** (`PHONE_TEMPLATE`), in `composer.dfy`.
- **Phone-number normalisation and recipient resolution**
  (`TwilioUserData.save`, `prefixed_phone_number`, and the list
  comprehensions that pick out usable numbers), in `recipients.dfy`. The
  stored rows are a sequence of records. Each record holds a user id and an
  optional number. The ORM's `user__user__in` filter is modelled as
  membership in the given sequence of ids.
- **The two dispatchers** (`TwilioSMS.send_alert` and
  `TwilioPhoneCall.send_alert`), in `dispatch.dfy`. Each is a class whose
  `SendAlert` method resolves the numbers and hands them to a loop
  (`SendEach`, `CallEach`) that appends one attempt per number to a log
  field. The Twilio transport is a function
  from a request to success or failure. Staging the TwiML document on S3 is
  a function from the document to an optional URL.

`text.dfy` holds the string helpers the composer is built from: newline
joining, its inverse (splitting), and decimal rendering with its parser.
`sequences.dfy` defines the subsequence order. `wrappers.dfy` defines
`Option`.

Each SMS dispatch and each call dispatch is specified by a plan function,
`SmsPlan` and `CallPlan`. Each `SendAlert` method is proved to append exactly
`Attempts(plan, transport)` to its log. The lemmas in `dispatch.dfy` state
what the plans contain.

The 160-character budget holds only when the list body is kept. The
fallback line and the recovery sentence are never length-checked.
`FallbackLength` and `RecoveryLength` state exactly when those messages
fit. A long service name, status or URL can therefore give an SMS longer
than 160 characters, and the model keeps that behaviour of the code rather
than an unconditional bound.

Status values (`PASSING`, `WARNING`, `CRITICAL`) belong to Cabot's `Service`
model, which is not part of this model. They are taken as the strings the
plugin compares against. Check importance is compared as the strings
`"CRITICAL"` and `"ERROR"`, as in the source. Lengths are counted in
characters, like Python's `len` on `str`.

## Model

| member | source | states |
|---|---|---|
| Composer.MessageFrame | cabot_alert_twilio/models.py:44-72 | Every message opens with `"<" + name + ">"`. For any status but PASSING it opens with the prefix line and a newline and ends with a newline and the detail URL. |
| Composer.PassingGivesRecovery | cabot_alert_twilio/models.py:45-47 | A passing service gets exactly `"<" + name + "> has returned to normal!"`. The text does not depend on the failing checks, the previous status or the URL. |
| Composer.RecoveryLength | cabot_alert_twilio/models.py:45-47 | The recovery sentence is `len(name) + 26` characters long. It fits the 160 budget exactly when the name has at most 134 characters. |
| Composer.AlertShape | cabot_alert_twilio/models.py:67-72 | The newline join of a prefix, a body and a suffix is `prefix + "\n" + body + "\n" + suffix`. What the 160 budget leaves for the body after the join of prefix, empty line and suffix is `160 - (len(prefix) + 2 + len(suffix))`. |
| Composer.AlertLayout | cabot_alert_twilio/models.py:48-72 | For any status but PASSING the message is the prefix `"<name> is reporting status"`, a newline, then the bulleted list when it is at most `160 - (len(prefix) + 2 + len(suffix))` long and otherwise `"- N checks failing"` with N the number of CRITICAL and ERROR checks, then a newline and the URL `scheme://host` + path. |
| Composer.ListKeptWhenItFits | cabot_alert_twilio/models.py:61-72 | When the list body is at most `160 - (len(prefix) + 2 + len(suffix))` long, it is kept and the whole message is at most 160 characters. |
| Composer.ListReplacedWhenTooLong | cabot_alert_twilio/models.py:60-72 | When the list body is longer than that, the body is `"- " + decimal(N) + " checks failing"`. N is the number of CRITICAL and ERROR checks, counted independently. |
| Composer.FallbackLength | cabot_alert_twilio/models.py:67-72 | A message that uses the fallback line fits in 160 exactly when `len(prefix) + len(suffix) + len(decimal(N)) + 19 <= 160`. The fallback can therefore overrun the budget. |
| Composer.NoFailingChecksOverBudget | cabot_alert_twilio/models.py:60-72 | With no CRITICAL or ERROR checks and a prefix plus suffix already over budget, the body is `"- 0 checks failing"`. |
| Composer.FallbackCountReadable | cabot_alert_twilio/models.py:70 | The count in the fallback line is its canonical decimal, and parsing that text gives back the count. |
| Composer.MessageLines | cabot_alert_twilio/models.py:61-72 | When the list is kept, at least one check is CRITICAL or ERROR, and no part contains a newline, splitting the message on newlines gives the prefix, one `"- " + name` line per reported check, and the suffix. |
| Composer.Select | cabot_alert_twilio/models.py:61-64 | Selecting by importance returns at most the input's checks, each of the importance asked for. |
| Composer.SelectAppend | cabot_alert_twilio/models.py:61-64 | Selection is an order-preserving filter: selecting from `a + b` is selecting from `a` followed by selecting from `b`. |
| Composer.SelectKeepsOrder | cabot_alert_twilio/models.py:61-64 | The selected checks form a subsequence of the input, so each group keeps the input order. |
| Composer.SelectMembership | cabot_alert_twilio/models.py:61-64 | A check is selected exactly when it is in the input and has the importance asked for. |
| Composer.ReportedCount | cabot_alert_twilio/models.py:61-65 | The number of listed checks equals the number of checks whose importance is CRITICAL or ERROR. |
| Composer.ReportedOrder | cabot_alert_twilio/models.py:61-65 | Every listed check is CRITICAL or ERROR, and every CRITICAL check comes before every ERROR check. A check is listed exactly when it is in the input with one of those importances. |
| Composer.BulletsLength | cabot_alert_twilio/models.py:61-64 | There is one bullet line per check, and the bullets together are the names' total length plus two characters per check. |
| Composer.ListBodyLength | cabot_alert_twilio/models.py:61-65 | A non-empty list body is as long as the reported names together plus three characters per reported check, less one. |
| Composer.PhoneScript | cabot_alert_twilio/models.py:97-101 | The spoken text is as long as the template's fixed parts plus the name, and the name can be read back from its one slot. |
| Composer.PhoneScriptNamesService | cabot_alert_twilio/models.py:131-133 | Every script opens and closes with the template's fixed parts, and two different service names never give the same script. |
| Text.JoinLinesLength | cabot_alert_twilio/models.py:65 | A newline join is as long as its lines plus one character between each pair of neighbours. |
| Text.SplitJoinLines | cabot_alert_twilio/models.py:65 | Splitting a newline join of newline-free lines gives the lines back. |
| Text.Decimal | cabot_alert_twilio/models.py:70 | `{:d}` gives a non-empty string of digits with no leading zero except for 0 itself. |
| Text.ParseDecimalInverse | cabot_alert_twilio/models.py:70 | Parsing the rendered count gives back the count. |
| Recipients.Normalised | cabot_alert_twilio/models.py:28-30 | A number stays present or missing as it was. A present number is kept or loses exactly its first character, a `+`, and a number without a leading `+` is kept. |
| Recipients.Prefixed | cabot_alert_twilio/models.py:33-35 | Saving the usable number gives back the stored number: the prefixed form starts with `+` and adds exactly the one `+` that save strips. |
| Recipients.UserData.PrefixedPhoneNumber | cabot_alert_twilio/models.py:33-35 | The property's value starts with `+`, and saving it gives back the object's stored number. It requires a number, because the source raises on None. |
| Recipients.UserData.Save | cabot_alert_twilio/models.py:28-31 | `save` replaces the number with its normalised form: one leading `+` removed. |
| Recipients.NormalisedStripsOnePlus | cabot_alert_twilio/models.py:28-31 | Saving `"+X"` stores `"X"`. A number without a leading `+` is stored unchanged, and a missing number stays missing. |
| Recipients.ReadBackWithOnePlus | cabot_alert_twilio/models.py:28-35 | For X without a leading `+`, a saved `"X"` and a saved `"+X"` both read back as `"+X"`. |
| Recipients.SaveTwiceIsSaveOnce | cabot_alert_twilio/models.py:28-31 | Saving twice equals saving once unless the number starts with `"++"`. |
| Recipients.SaveTwiceStripsTwo | cabot_alert_twilio/models.py:28-31 | For every X, saving `"++" + X` stores `"+" + X`, and saving again stores X: such a number loses one `+` on each save. |
| Recipients.Mobiles | cabot_alert_twilio/models.py:82-83 | Resolution returns at most one number per row, and each number starts with `+` and has at least one character after it. |
| Recipients.MobilesMembership | cabot_alert_twilio/models.py:82-83 | A number is resolved exactly when some row of a user in the id list holds it, without its leading `+`, as a non-empty number. |
| Recipients.MobilesAppend | cabot_alert_twilio/models.py:82-83 | Resolution follows row order: resolving `a + b` is resolving `a` followed by resolving `b`. |
| Recipients.MobilesSkipsUnusable | cabot_alert_twilio/models.py:82-83 | Rows with an empty or missing number, and rows of users outside the list, contribute nothing. |
| Recipients.MobilesMonotone | cabot_alert_twilio/models.py:146-147 | Resolving a smaller id list gives a subsequence of resolving a larger one. In particular, the duty officers' numbers are a subsequence of the SMS recipients' numbers. |
| Recipients.DutyOfficersAmongRecipients | cabot_alert_twilio/models.py:81-83 | Every number resolved for the duty officers is also resolved for the users together with the duty officers. |
| Recipients.MobilesOfUnion | cabot_alert_twilio/models.py:81-83 | A number is in the SMS list for `users + duty_officers` exactly when it is resolved for the users or for the duty officers. |
| Recipients.MobilesHaveSinglePlus | cabot_alert_twilio/models.py:28-35 | When stored numbers have no leading `+`, every resolved number has exactly one. |
| Recipients.SavedRowsResolveWithSinglePlus | cabot_alert_twilio/models.py:28-35 | When every stored number was written by save from a number entered with at most one leading `+`, every resolved number has exactly one `+`. |
| Dispatch.AttemptsRecordEveryRequest | cabot_alert_twilio/models.py:86-94 | Whatever the transport answers, the log records every request, in order. A request is among the accepted ones exactly when it was planned and the transport accepted it. |
| Dispatch.AttemptsAppend | cabot_alert_twilio/models.py:86-94 | Trying a concatenation of requests logs the first part's attempts followed by the second part's. |
| Dispatch.SmsRequestsAppend | cabot_alert_twilio/models.py:86-92 | The SMS requests for a concatenation of mobiles are the first part's requests followed by the second part's. |
| Dispatch.CallRequestsAppend | cabot_alert_twilio/models.py:150-157 | The call requests for a concatenation of mobiles are the first part's requests followed by the second part's. |
| Dispatch.SmsPlan | cabot_alert_twilio/models.py:74-92 | The SMS plan has at most one request per stored row, and each is an SMS from the configured number to a number starting with `+`. |
| Dispatch.CallScript | cabot_alert_twilio/models.py:140-141 | The staged document is said by the voice "alice" three times, and the service name can be read back from its text. |
| Dispatch.CallPlan | cabot_alert_twilio/models.py:127-157 | The call plan has at most one request per stored row and is empty unless the service is CRITICAL. Each request is a call from the configured number to a number starting with `+`, fetching a non-empty URL with GET. |
| Dispatch.TwilioSms.SendEach | cabot_alert_twilio/models.py:86-94 | The SMS loop appends one attempt per mobile, in order, each an SMS of the same message from the same sender, whatever the transport answers. |
| Dispatch.TwilioPhoneCall.CallEach | cabot_alert_twilio/models.py:150-159 | The call loop appends one attempt per mobile, in order, each a GET call of the same URL from the same sender, whatever the transport answers. |
| Dispatch.TwilioSms.SendAlert | cabot_alert_twilio/models.py:74-94 | The SMS dispatcher appends exactly one attempt per request of `SmsPlan`, in order, whatever the transport answers. |
| Dispatch.TwilioPhoneCall.SendAlert | cabot_alert_twilio/models.py:127-159 | The voice dispatcher stages the script once when the service is CRITICAL. It then appends exactly one attempt per request of `CallPlan`, in order, whatever the transport answers. |
| Dispatch.SmsOnePerRecipient | cabot_alert_twilio/models.py:74-94 | The SMS plan is empty exactly when the step is PASSING to WARNING or nobody has a number. Otherwise it holds one SMS per resolved number, in order, all with the same message and sender. |
| Dispatch.SmsReachesEveryRegisteredNumber | cabot_alert_twilio/models.py:81-92 | When SMS is not suppressed, every non-empty stored number of a user or duty officer gets a text. |
| Dispatch.CallOnePerDutyOfficer | cabot_alert_twilio/models.py:127-159 | There are no calls unless the service is CRITICAL, and none when staging gives None or an empty URL. Otherwise there is one call per duty officer's number, in order, each fetching the staged URL with GET. |
| Dispatch.CallsOnlyDutyOfficers | cabot_alert_twilio/models.py:146-147 | Every called number belongs to a duty officer's row. Plain users are never called. |
| Dispatch.CalledNumbersAreTexted | cabot_alert_twilio/models.py:75-83 | Every number the voice channel calls is also texted by the SMS channel for the same snapshot. |

## Left out

- ORM query semantics (`TwilioUserData.objects.filter`): the stored rows are an abstract sequence. Results come in row order, with no re-ordering or de-duplication.
- Persisting the row in `save` (`super().save`): only the in-place normalisation of the number is modelled.
- `settings.WWW_SCHEME`, `settings.WWW_HTTP_HOST` and `reverse("service", ...)`: the scheme, the host and the routed path are inputs.
- The S3 upload in `_upload_to_s3`: the bucket lookup, `connect_s3`, the `uuid1` key, the headers and the 60-second URL expiry are left out. Staging is modelled as a function from the staged document to an optional URL. None stands for an exception raised and caught inside the upload's `try` block (the connection, the bucket, the key and the URL).
- TwiML rendering (`twiml.Response().say(..., voice="alice", loop=3)` and `str(response)`): the staged document is the value `Say(script, "alice", 3)`, not its XML text.
- The Twilio REST client and the network: a request's outcome is a function of the request, with false standing for a caught exception.
- `_make_twilio_client` and the environment variables it reads (`TWILIO_ACCOUNT_SID`, `TWILIO_AUTH_TOKEN`, `TWILIO_OUTGOING_NUMBER`): the configuration is a parameter. The `KeyError` raised when a variable is missing is not modelled.
- `TWILIO_TWIML_BUCKET`: `_upload_to_s3` reads it before its `try` block, so a missing variable raises out of the voice channel's `send_alert` after the document is built and before anything is staged or called. The model assumes the variable is set: that exception is not modelled.
- Logging of failures (`_LOG.exception`): a failure shows only as `accepted == false` in the attempt log.
- Concurrency between the two channels, which belongs to the host framework.
- `str(self.phone_number)` on a value that is neither a string nor None: phone numbers are modelled as optional strings.
