# Route 53 DNS-01 client, modelled in Dafny

This project models `Letsencryptor::AwsRoute53::Client`, the part of the
letsencryptor gem that supports DNS-01 domain validation (section 8.4 of
RFC 8555). The client does two things:

- **Change requests.** `create_txt_record` and `delete_txt_record` each send
  one change batch to Route 53's `change_resource_record_sets`. The batch holds
  one change: an `UPSERT` or a `DELETE` of a `TXT` record with TTL 60. Its one
  resource record is the caller's value wrapped in literal double quotes.
  Whatever the provider returns or raises goes back to the caller unchanged.
- **Propagation polling.** `wait_for_record_propagation` calls Route 53's
  `test_dns_answer` at most `max_attempts` times (default 60). It returns
  `true` at the first answer that has a record containing the value as a
  substring. A rescued `ServiceError` counts as a miss. After every miss it
  sleeps `delay` seconds (default 5), and it returns `false` once the budget
  is used up.

Everything is in one module, `AwsRoute53` (`route53_client.dfy`):

- The request builders are pure functions over datatypes that mirror the
  request hash (`ChangeRequest`, `ChangeBatch`, `Change`,
  `ResourceRecordSet`, `ResourceRecord`). `ParseChallengeRequest` is their
  inverse, and lemmas prove the round trip in both directions.
- The `Client` class holds the immutable `hostedZoneId` (an `Option`, since
  Ruby's default is `nil`) and the SDK handle. The handle is a datatype
  holding the provider's change call as an opaque function.
- `test_dns_answer` is a parameter `answers: nat -> Result<DnsAnswer>`. Its
  i-th value is the provider's answer to the i-th lookup: either the answer's
  `record_data` or a raised error.
- `sleep` is not timed. The polling method returns a trace of `Lookup(query)`
  and `Sleep(delay)` events, in order, next to its outcome.
- The loop is proved against two specification functions,
  `PropagationOutcome` and `PropagationTrace`. Both are built on `FirstStop`,
  the first attempt whose lookup does not miss. The lemmas state what the
  source promises about those two functions.

Two behaviours of the code are kept as written, although a reader of its
intent might expect otherwise:

- The code sleeps after the last missed attempt too, before it gives up,
  although that sleep serves no later lookup. The model has a sleep after
  every miss, so an exhausted run performs `max_attempts` lookups and
  `max_attempts` sleeps.
- The code rescues only `Aws::Route53::Errors::ServiceError`. Any other
  exception raised by the lookup leaves the loop at once, with no sleep. The
  model keeps this third ending (`Err(e)`).

## Model

| member | source | states |
|---|---|---|
| `AwsRoute53.Quoted` | lib/letsencryptor/aws_route53/client.rb:24 | the record content is the value between two `"`: its length is the value's plus 2, its first and last characters are quotes, and stripping them gives back the value |
| `AwsRoute53.UnquoteQuoted` | lib/letsencryptor/aws_route53/client.rb:23-25 | stripping the first and last characters of the record content recovers the caller's value |
| `AwsRoute53.QuotedInjective` | lib/letsencryptor/aws_route53/client.rb:42-44 | two values give the same record content only if they are equal |
| `AwsRoute53.CreateTxtRecordRequest` | lib/letsencryptor/aws_route53/client.rb:14-29 | the request built for `create_txt_record` reads back as exactly one `UPSERT` TXT/TTL-60 change of the given zone, name and value |
| `AwsRoute53.DeleteTxtRecordRequest` | lib/letsencryptor/aws_route53/client.rb:33-48 | the request built for `delete_txt_record` reads back as exactly one `DELETE` TXT/TTL-60 change of the given zone, name and value |
| `AwsRoute53.Client.CreateTxtRecord` | lib/letsencryptor/aws_route53/client.rb:13-30 | `create_txt_record` raises exactly the error the provider raises on the UPSERT request, and otherwise returns the provider's own answer |
| `AwsRoute53.Client.DeleteTxtRecord` | lib/letsencryptor/aws_route53/client.rb:32-49 | `delete_txt_record` raises exactly the error the provider raises on the DELETE request, and otherwise returns the provider's own answer |
| `AwsRoute53.CreateTxtRecordRequestShape` | lib/letsencryptor/aws_route53/client.rb:13-29 | the create request has the given zone id and exactly one change. The change is `UPSERT` of a `TXT` record with TTL 60 and the given name, holding exactly one resource record `"value"` |
| `AwsRoute53.DeleteMirrorsCreate` | lib/letsencryptor/aws_route53/client.rb:32-49 | the delete request equals the create request for the same inputs except that its one change's action is `DELETE`, so the two requests differ |
| `AwsRoute53.ParseChallengeRequestInverse` | lib/letsencryptor/aws_route53/client.rb:13-49 | reading back the request built for any (zone, name, value, action) gives exactly those four fields |
| `AwsRoute53.ChallengeRequestInverse` | lib/letsencryptor/aws_route53/client.rb:13-49 | every request that reads as one TXT/TTL-60 change with one quoted record is exactly the request the client builds for the fields read from it |
| `AwsRoute53.ChangeCallsPassThrough` | lib/letsencryptor/aws_route53/client.rb:13-49 | create and delete fail exactly when the provider raises on the request they send, with the provider's own error, and each sends the request that reads back as its own (zone, name, value, action) |
| `AwsRoute53.Includes` | lib/letsencryptor/aws_route53/client.rb:62 | `data.include?(value)`, tried offset by offset, holds iff the value occurs in the record at some offset (the empty value occurs in every record) |
| `AwsRoute53.AnyIncludes` | lib/letsencryptor/aws_route53/client.rb:62 | `record_data.any?` holds iff some record of the answer contains the value at some offset |
| `AwsRoute53.CheckAnswer` | lib/letsencryptor/aws_route53/client.rb:55-66 | one attempt finds the value iff the lookup answered and some record contains it. It raises iff the lookup raised something other than a `ServiceError`, and then raises that same error. A rescued `ServiceError` or an answer without the value is a miss |
| `AwsRoute53.QuotedRecordMatches` | lib/letsencryptor/aws_route53/client.rb:62 | an answer holding the quoted value, as published by create, matches the unquoted value |
| `AwsRoute53.EmptyValueMatchesAnyRecord` | lib/letsencryptor/aws_route53/client.rb:62 | an empty value matches exactly the answers that hold at least one record |
| `AwsRoute53.FirstStop` | lib/letsencryptor/aws_route53/client.rb:54-66 | the result is the first attempt in the budget whose lookup does not miss. Every earlier attempt missed, and if no attempt in the budget stops the loop, the result is the budget (0 when the budget is not positive) |
| `AwsRoute53.Misses` | lib/letsencryptor/aws_route53/client.rb:54-70 | `n` missed attempts are `2n` events that alternate lookup and sleep, starting with a lookup |
| `AwsRoute53.Client.constructor` | lib/letsencryptor/aws_route53/client.rb:8-11 | the client keeps the given zone id (default `nil`) and SDK handle |
| `AwsRoute53.Client.WaitForRecordPropagation` | lib/letsencryptor/aws_route53/client.rb:51-73 | the loop's outcome and its lookup/sleep trace equal the specification functions for the given answers, value, budget and delay, with every lookup asking for the client's zone, the name and type `TXT` |
| `AwsRoute53.PropagationConfirmedIff` | lib/letsencryptor/aws_route53/client.rb:54-63 | the wait returns `true` iff some attempt below `max_attempts` finds the value and every earlier attempt missed |
| `AwsRoute53.PropagationExhausted` | lib/letsencryptor/aws_route53/client.rb:52-72 | with no match in the budget, the wait returns `false` after exactly `max_attempts` lookups and as many sleeps. With `max_attempts <= 0` it performs no lookup at all |
| `AwsRoute53.PropagationStopsAtFirstHit` | lib/letsencryptor/aws_route53/client.rb:54-69 | a wait that does not return `false` stops at the first non-missing attempt `s`. It has made `s + 1` lookups and `s` sleeps, its last event is a lookup (no sleep after a match), and it returned `true` iff that lookup found the value |
| `AwsRoute53.PropagationTraceEvents` | lib/letsencryptor/aws_route53/client.rb:56-68 | every event of a wait is a lookup with the same zone, name and type, or a sleep of `delay` seconds |
| `AwsRoute53.ServiceErrorsAreRetried` | lib/letsencryptor/aws_route53/client.rb:55-69 | after `k` service errors, a matching answer on attempt `k` within the budget gives `true` with `k + 1` lookups and `k` sleeps: a service error advances the counter and does not abort the wait |
| `AwsRoute53.OtherErrorEscapes` | lib/letsencryptor/aws_route53/client.rb:55-66 | an exception that is not a service error, raised on attempt `k` after `k` misses, is raised to the caller after `k + 1` lookups and `k` sleeps, the last event being that lookup |

## Left out

- `initialize_client` and the credential lookups (client.rb:77-95) are left out. They read the process environment. A missing `AWS_ACCESS_KEY_ID` raises `KeyError` there, which belongs to the host environment. The constructor takes the SDK handle as a parameter instead.
- The real Route 53 calls `change_resource_record_sets` and `test_dns_answer` are left out. The first is an opaque function held by the client. The second is the `answers` parameter, indexed by lookup number. Neither models the answer depending on the question asked; the trace records the question instead.
- The `puts` message printed for a rescued service error is console output and is not modelled.
- `sleep` is an event in the trace. The model does not reason about wall-clock time. Ruby's `sleep` raises `ArgumentError` for a negative delay, and the model does not capture that.
- `AwsRoute53.Client.WaitForRecordPropagation` takes `max_attempts` as an integer and `delay` as a real. Ruby also accepts a float budget, where `attempt < 2.5` allows three attempts. That case is not modelled.
- Responses whose `record_data` is `nil`, or holds entries without an `include?` method (such as `nil` or an Integer), would raise `NoMethodError` in Ruby. Other non-string entries, such as Arrays or Hashes, answer `include?` by their own rules. Neither case is modelled: `record_data` is always a list of strings here.
- The Heroku client, the Rails install generator, the one-field configuration object and the gem's entry file are not part of this model. They hold no logic beyond wiring.
