# A verified model of the Traffic Manager webhook for external-dns

This project is a Dafny model of the external-dns webhook that publishes DNS records through Azure Traffic Manager. external-dns proposes a batch of record changes. The webhook turns every enabled record into a Traffic Manager profile with one endpoint per target. It keeps a local mirror of the profiles it manages, and for a vanity hostname it requests a CNAME record.

The model follows the source package by package, one Dafny module each:

- `Annotations` (annotations.dfy): the fifteen annotation keys, the default values, `ParseConfig`, `ToProfileConfig` and `ToEndpointConfig`.
- `Decimal` (decimal.dfy): the part of base-10 integer parsing the parser relies on, and the `%d` rendering of endpoint-name suffixes.
- `Validator` (validator.dfy): `ValidateConfig`, the ordered guard chain that returns the first violation, and `contains`.
- `TrafficManager` (tm_types.dfy): the profile and endpoint records sent to the control plane, and their defaults.
- `Naming` (naming.dfy) and `DnsEndpoint` (dns_endpoint.dfy): the character-wise name rewrites for profiles, endpoints and DNSEndpoint resources.
- `DomainFilter` (filter.dfy): suffix and label-boundary matching of hostnames against the configured domain filters.
- `State` and `StateManager` (state_types.dfy, state_manager.dfy): the TTL cache of profile records keyed by vanity hostname. It is a class over a `map`. Reads hand out copies, and expiry is checked only on read.
- `Sync` (sync.dfy): the ownership test, the conversion of an SDK profile with optional fields into a mirror record, the paged listing and the sweep over resource groups.
- `Remote` (remote.dfy): an in-memory control plane. It is a map from (resource group, profile name) to a profile with its endpoints, where create and update are upserts. Every call is numbered, and a failure oracle (a set of call numbers) decides which calls fail. A ghost log records each call with its outcome.
- `ProviderPlan` (provider_plan.dfy): what `createEndpoint`, `updateEndpoint` and `deleteEndpoint` decide before their first remote call.
- `Provider` (provider.dfy): the reconciliation engine. It runs `createEndpoint`, `updateEndpoint`, `deleteEndpoint`, `ApplyChanges`, `Records` and `AdjustEndpoints` against the control plane and the mirror.
- `Env` (env.dfy): `getEnv` and `getEnvSlice`.

Where the source works step by step, the model does too:

- the mirror, the control plane and the provider are classes whose methods update their fields;
- the loops of the source are `while` loops with invariants.

Each such method is proved equal to a function of the old state. The mirror, for example, is tied to `Visible`, `Stamped` and `WithEndpoint`; the provider's methods are tied to `CreateRun`, `UpdateRun`, `DeleteRun` and `ApplyRun` over the world as a value (control plane, mirror, requested CNAME changes). The properties the source promises are lemmas about those functions. Clocks are explicit `now` arguments, and 0 stands for Go's zero time.

## Model

| member | source | states |
|---|---|---|
| Decimal.DigitChar | pkg/provider/provider.go:548 | the digit character of a value below ten is a decimal digit with that value |
| Decimal.NatToDecimal | pkg/provider/provider.go:548 | the `%d` rendering of a natural number is non-empty, all digits, and has no leading zero |
| Decimal.DigitsValue | pkg/annotations/parser.go:87 | the value of a decimal digit run, most significant digit first (definition; DecimalRoundTrip, DigitsValueLowerBound and ParseInt64Meaning state its properties) |
| Decimal.IntToDecimal | pkg/annotations/parser.go:87 | the "%d" text of a signed integer, a "-" before the digits of a negative one (definition; ParseFormattedInt states that ParseInt64 reads it back) |
| Decimal.ParseInt64 | pkg/annotations/parser.go:87 | a successful parse lies in the int64 range; the empty string never parses |
| Decimal.ParseInt64Meaning | pkg/annotations/parser.go:87 | a text parses exactly when it is an optional "+" or "-" followed by a non-empty run of decimal digits whose signed value lies in the int64 range, and then its value is that signed value |
| Decimal.ParseInt64RejectsMalformed | pkg/annotations/parser.go:87 | "abc", "+", "-", "1.5", " 1", "1 " and "1_000" do not parse |
| Decimal.ParseInt64AcceptsSigned | pkg/annotations/parser.go:87 | "+42" is 42, "-7" is -7 and "007" is 7 |
| Decimal.LongRunsRejected | pkg/annotations/parser.go:87 | twenty or more digits without a leading zero, signed or not, lie outside the int64 range and do not parse |
| Decimal.ParseInt64RejectsOverflow | pkg/annotations/parser.go:87 | twenty nines do not parse |
| Decimal.DecimalRoundTrip | pkg/provider/provider.go:548 | reading back the digits of a rendered natural number gives the number |
| Decimal.DecimalInjective | pkg/provider/provider.go:548 | distinct indices render as distinct digit strings |
| Decimal.ParseFormattedInt | pkg/annotations/parser.go:87 | parsing the decimal text of any int64 gives it back |
| Decimal.DashSuffixUnique | pkg/provider/provider.go:548 | two names of the form `x-<digits>` are equal only when both their stems and their digit parts are |
| TrafficManager.DefaultProfileConfig | pkg/trafficmanager/types.go:59-70 | empty name, resource group and tags; location "global", Weighted routing, TTL 30, monitor HTTPS/443/"/", health checks on |
| TrafficManager.DefaultEndpointConfig | pkg/trafficmanager/types.go:73-80 | empty name, target and location; ExternalEndpoints, weight 100, priority 1, status Enabled |
| Annotations.ToLowerAscii | pkg/annotations/parser.go:57 | the lower-cased text has the same length and each character is the ASCII lower case of the input's |
| Annotations.LowerAscii | pkg/annotations/parser.go:57 | one character of strings.ToLower on ASCII: an upper-case letter becomes its lower-case form, anything else is kept (definition; ToLowerAscii and EnabledSpellings state its use) |
| Annotations.ParseBool | pkg/annotations/parser.go:148 | accepts exactly "1", "t", "T", "TRUE", "true", "True" as true and "0", "f", "F", "FALSE", "false", "False" as false, rejecting everything else (definition; used by ParseFirstBadField and ParseCopiesOrDefaults) |
| Annotations.EnabledIn | pkg/annotations/parser.go:55-57 | the enabled key is present and reads "true" once lower-cased (definition; ParseEnabledIff and EnabledSpellings state its role and its spellings) |
| Annotations.ParseConfig | pkg/annotations/parser.go:41-156 | the annotation parser (definition); ParseDisabled, ParseEnabledIff, ParseRequiresResourceGroup, ParseFirstBadField, ParseCopiesOrDefaults and ParseAnnotationsFor state what it returns |
| Annotations.StringOr | pkg/annotations/parser.go:71-83 | a string key's value when it is present and non-empty, the default otherwise (definition; ParseCopiesOrDefaults states its role) |
| Annotations.IntOr | pkg/annotations/parser.go:85-139 | an integer key: the default when absent or empty, the parsed value when it parses, an InvalidInt error naming the field and the text otherwise (definition; ParseFirstBadField, ParseCopiesOrDefaults and IntOrFormatted state its properties) |
| Annotations.BoolOr | pkg/annotations/parser.go:146-153 | the health-checks key: the default when absent or empty, the parsed boolean when it parses, an InvalidHealthChecks error with the text otherwise (definition; ParseFirstBadField and ParseCopiesOrDefaults state its properties) |
| Annotations.ToProfileConfig | pkg/annotations/parser.go:159-180 | location stays "global"; the profile name, resource group, routing method, TTL, monitor settings and health checks are copied; the tags are exactly managedBy = external-dns-traffic-manager-webhook |
| Annotations.ToEndpointConfig | pkg/annotations/parser.go:183-197 | the target is the argument; name (when non-empty), type, weight, priority, status and location come from the configuration |
| Annotations.AnnotationKeysDistinct | pkg/annotations/constants.go:7-32 | there are fifteen keys, each is "webhook/traffic-manager-" followed by a non-empty suffix, and no two are equal |
| Annotations.DefaultsCoincide | pkg/annotations/constants.go:36-47 | the annotation defaults agree with the record defaults of the control plane; DefaultHealthChecksEnabled is true but the parser's starting record has health checks off |
| Annotations.ParseDisabled | pkg/annotations/parser.go:55-62 | without an enabled annotation reading "true" in any case, parsing succeeds with the disabled default record whatever else the labels hold |
| Annotations.ParseEnabledIff | pkg/annotations/parser.go:55-62 | a successful parse is enabled exactly when the enabled annotation is present and lower-cases to "true" |
| Annotations.ParseRequiresResourceGroup | pkg/annotations/parser.go:64-68 | an enabled parse with a missing or empty resource group fails with that error |
| Annotations.ParseFirstBadField | pkg/annotations/parser.go:85-153 | an enabled parse with a resource group fails exactly when a given weight, priority, TTL, port or health-checks value does not parse; the error names the weight first, then the priority, then the TTL, then the port, then health checks, each with the offending text, once every earlier field parsed |
| Annotations.ParseCopiesOrDefaults | pkg/annotations/parser.go:42-153 | a successful enabled parse copies every given string key verbatim and keeps the default for every absent or empty key; weight, priority, DNS TTL and monitor port are the parsed value when given and 100, 1, 30 and 443 otherwise; health checks are the parsed boolean when given; the endpoint type is never read |
| Annotations.ParseSpelledOut | pkg/annotations/parser.go:41-156 | any label set that spells out every field of an enabled configuration parses to exactly that configuration |
| Annotations.ParseAnnotationsFor | pkg/annotations/parser.go:41-156 | parsing the annotations written out for a describable configuration gives the configuration back |
| Annotations.IntOrFormatted | pkg/annotations/parser.go:85-139 | a given key whose value is the decimal text of an int64 reads back as that integer, whatever the field and the default |
| Annotations.AnnotationsForParseInts | pkg/annotations/parser.go:85-139 | the annotations written for a describable configuration give back its weight, priority, DNS TTL and monitor port |
| Annotations.EnabledSpellings | pkg/annotations/parser.go:56-57 | "TRUE" and "True" enable; "yes", "false" and "" do not |
| Validator.FirstFailureMeaning | pkg/annotations/validator.go:14-61 | no error exactly when no check fails; otherwise the error is that of a failing check all of whose predecessors pass |
| Validator.FirstFailure | pkg/annotations/validator.go:14-61 | the error of the earliest rule in the list that the configuration breaks, or none (definition; FirstFailureMeaning states this for every list of rules) |
| Validator.Fails | pkg/annotations/validator.go:14-59 | the condition under which each of the nine guards rejects, with the source's bounds and allowed values (definition; RangeBoundaries, AcceptedIff and FirstFailureMeaning state its properties) |
| Validator.ErrorFor | pkg/annotations/validator.go:14-59 | the error each guard returns, carrying the offending value where the source formats one (definition; FirstFailureMeaning and RejectedNamesFirstFailure state which one is reported) |
| Validator.Validation | pkg/annotations/validator.go:8-62 | no error for a disabled configuration, otherwise the first failure in the source's rule order (definition; ValidateConfig computes it, AcceptedIff and RejectedNamesFirstFailure state its meaning) |
| Validator.Contains | pkg/annotations/validator.go:65-72 | the scan reports true exactly when the item occurs in the slice |
| Validator.ValidateConfig | pkg/annotations/validator.go:8-62 | the guard chain returns the first failing check of the fixed order, and nothing for a disabled configuration |
| Validator.ValidateRanges | pkg/annotations/validator.go:14-26 | the resource-group, weight and priority checks return the first of their failures, or leave the decision to the later checks |
| Validator.ValidateLimits | pkg/annotations/validator.go:46-61 | the DNS TTL, monitor port and location checks return the first of their failures, or no error |
| Validator.ValidateNames | pkg/annotations/validator.go:28-44 | the routing-method, protocol and status checks return the first of their failures, or leave the decision to the later checks |
| Validator.NextCheck | pkg/annotations/validator.go:14-59 | each check in the order either decides the result or hands it to the checks after it |
| Validator.AcceptedIff | pkg/annotations/validator.go:8-62 | a configuration is accepted exactly when it is disabled or passes all nine checks |
| Validator.RejectedNamesFirstFailure | pkg/annotations/validator.go:14-59 | a rejected configuration is enabled, and the error belongs to a failing check whose predecessors all pass |
| Validator.CheckOrderIsComplete | pkg/annotations/validator.go:14-59 | every check appears in the order exactly once |
| Validator.RangeBoundaries | pkg/annotations/validator.go:19-54 | weights 0 and 1001 are rejected with their value; weights 1 and 1000, ports 1 and 65535 and TTL 30 pass their checks |
| Validator.DefaultsAccepted | pkg/annotations/validator.go:8-62 | an enabled default configuration with a resource group and a location is accepted |
| Validator.MissingLocationRejected | pkg/annotations/validator.go:56-59 | an enabled default configuration without a location is rejected for the missing location |
| Validator.OnlyLastRuleFails | pkg/annotations/validator.go:14-61 | an enabled configuration that passes the first eight checks is accepted or rejected by the location check alone |
| Validator.PassingPrefix | pkg/annotations/validator.go:14-61 | checks that pass can be skipped: the verdict is that of the checks after them |
| Naming.SanitizeName | pkg/provider/provider.go:555-566 | the loop's result is the input with every character outside [A-Za-z0-9] replaced by '-' |
| Naming.Sanitized | pkg/provider/provider.go:555-566 | each character kept when alphanumeric and replaced by '-' otherwise (definition; SanitizedShape, SanitizedIdempotent, SanitizedFixedIff and SanitizedAppend state its properties) |
| Naming.SanitizedShape | pkg/provider/provider.go:555-566 | the output has the input's length, uses only [A-Za-z0-9-], keeps a character exactly when it is alphanumeric or '-', and writes '-' for every other |
| Naming.SanitizedIdempotent | pkg/provider/provider.go:555-566 | sanitizing twice gives the same as sanitizing once |
| Naming.SanitizedFixedIff | pkg/provider/provider.go:555-566 | a name is left unchanged exactly when all its characters are in [A-Za-z0-9-] |
| Naming.SanitizedAppend | pkg/provider/provider.go:558-564 | sanitizing a concatenation is the concatenation of the sanitized parts |
| Naming.SanitizedExamples | pkg/provider/filter_test.go:216-261 | the sanitizer test vectors: dots, underscores, mixed case and punctuation |
| Naming.ProfileNameShape | pkg/provider/provider.go:529-533 | a profile name is the sanitized DNS name followed by "-tm", three characters longer, in the name alphabet |
| Naming.ProfileNameCollidesIff | pkg/provider/provider.go:529-533 | two DNS names get the same profile name exactly when they sanitize alike |
| Naming.GenerateProfileName | pkg/provider/provider.go:529-533 | the sanitized DNS name followed by "-tm" (definition; ProfileNameShape and ProfileNameCollidesIff state its shape and when two names collide) |
| Naming.GenerateEndpointName | pkg/provider/provider.go:536-541 | the name is built from the first target when there is one and from the DNS name otherwise: same length, drawn from [A-Za-z0-9-], each character kept exactly when it is alphanumeric or '-', every other one written as '-' |
| Naming.Indexed | pkg/provider/provider.go:548-550 | a name followed by "-" and the decimal index, as fmt.Sprintf("%s-%d") writes it (definition; IndexedDistinct states that it is injective) |
| Naming.GenerateEndpointNameFromTarget | pkg/provider/provider.go:544-552 | the sanitized target, with "-index" appended only when the index is positive (definition; EndpointNameFromTargetShape states its shape) |
| Naming.IndexedDistinct | pkg/provider/provider.go:548-550 | names with an index suffix are equal only when both the stems and the indices are |
| Naming.EndpointNameFromTargetShape | pkg/provider/provider.go:544-552 | index 0 gives the bare sanitized target, a positive index appends "-i"; the name is always in the name alphabet |
| Naming.EndpointNameExamples | pkg/provider/filter_test.go:294-333 | the endpoint-name test vectors, including "uses the first of several targets" and the index suffix |
| DnsEndpoint.GenerateName | pkg/dnsendpoint/manager.go:123-134 | the loop's result is the filtered stem (dot to '-', [A-Za-z0-9-] kept, the rest dropped) followed by "-tm-cname" |
| DnsEndpoint.CnameName | pkg/dnsendpoint/manager.go:123-134 | the filtered stem followed by "-tm-cname" (definition; GenerateName computes it, CnameNameShape, StemShape and StemAgreesWithSanitize state its properties) |
| DnsEndpoint.CnameStem | pkg/dnsendpoint/manager.go:125-132 | the per-character rewrite: "." becomes "-", [A-Za-z0-9-] is kept, the rest is dropped (definition; StemShape, StemOfNameChars, StemIdempotent and DroppedCharacter state its properties) |
| DnsEndpoint.StemShape | pkg/dnsendpoint/manager.go:125-132 | the stem uses only [A-Za-z0-9-] and is no longer than the hostname |
| DnsEndpoint.CnameNameShape | pkg/dnsendpoint/manager.go:133 | every name ends with "-tm-cname", after a stem in the name alphabet, and is at most nine characters longer than the hostname |
| DnsEndpoint.StemOfNameChars | pkg/dnsendpoint/manager.go:126-132 | the character filter is the identity on text already in [A-Za-z0-9-] |
| DnsEndpoint.StemIdempotent | pkg/dnsendpoint/manager.go:126-132 | re-applying the character filter to a stem returns it unchanged |
| DnsEndpoint.StemAgreesWithSanitize | pkg/dnsendpoint/manager.go:123-134 | on hostnames over [A-Za-z0-9.-] the name is the sanitized hostname followed by "-tm-cname" |
| DnsEndpoint.DroppedCharacter | pkg/dnsendpoint/manager.go:129-131 | an underscore is dropped here, where the sanitizer writes '-' ("a_b.com" gives "ab-com-tm-cname") |
| DomainFilter.AnyFilterMatchesIff | pkg/provider/filter.go:15-21 | the search over the filter list succeeds exactly when some filter in it matches |
| DomainFilter.MatchesDomainFilter | pkg/provider/filter.go:8-22 | an empty filter list admits everything, otherwise some filter must match (definition; MatchesDomainFilterIff, FilterOrderIrrelevant and FilterMonotone state its properties) |
| DomainFilter.MatchesDomain | pkg/provider/filter.go:26-46 | an exact match, a subdomain, or for a "*." filter its bare suffix or a subdomain of it (definition; PlainFilterIff, WildcardAdmits and MatchOnLabelBoundary state its properties) |
| DomainFilter.AnyFilterMatches | pkg/provider/filter.go:15-21 | the loop over the filter list: some filter matches (definition; AnyFilterMatchesIff states this) |
| DomainFilter.MatchesDomainFilterIff | pkg/provider/filter.go:8-22 | an empty list admits every hostname; otherwise a hostname passes exactly when some filter matches it |
| DomainFilter.FilterOrderIrrelevant | pkg/provider/filter.go:15-21 | two lists with the same members give the same answer, whatever their order and repetitions |
| DomainFilter.FilterMonotone | pkg/provider/filter.go:15-21 | adding a filter at either end of a non-empty list never removes a match |
| DomainFilter.SelfMatch | pkg/provider/filter.go:28-30 | every hostname matches itself, alone or as a one-element filter list |
| DomainFilter.PlainFilterIff | pkg/provider/filter.go:26-46 | a filter not starting with "*." matches exactly itself and the hostnames ending in "." followed by it |
| DomainFilter.WildcardAdmits | pkg/provider/filter.go:38-43 | "*." + s admits s itself and every hostname ending in "." + s |
| DomainFilter.MatchOnLabelBoundary | pkg/provider/filter.go:33-35 | a plain filter's non-exact match ends with the filter right after a dot |
| DomainFilter.NotSuffixAt | pkg/provider/filter.go:33 | one differing aligned character defeats a suffix test |
| DomainFilter.SubdomainAdmitted | pkg/provider/filter.go:32-35 | any name followed by "." and a filter's text passes that filter |
| DomainFilter.SubdomainExample | pkg/provider/filter_test.go:81-89 | "app.example.com" matches "example.com" |
| DomainFilter.DeepSubdomainExample | pkg/provider/filter_test.go:81-89 | "api.app.example.com" matches "example.com" |
| DomainFilter.NotSubdomainExample | pkg/provider/filter_test.go:81-89 | "notexample.com" does not match "example.com" |
| DomainFilter.NoDotExample | pkg/provider/filter.go:26-46 | "examplexcom" does not match "example.com" |
| DomainFilter.CaseSensitiveExample | pkg/provider/filter_test.go:198-202 | "APP.EXAMPLE.COM" does not match "example.com" |
| DomainFilter.WildcardSelfExample | pkg/provider/filter_test.go:91-105 | "*.example.com" admits "example.com" |
| DomainFilter.WildcardDeepExample | pkg/provider/filter_test.go:91-105 | "*.example.com" admits "deep.sub.example.com" |
| DomainFilter.WildcardListExample | pkg/provider/filter_test.go:58-74 | the list "example.com", "test.com", "*.internal" admits "app.internal" |
| DomainFilter.EmptyHostnameExample | pkg/provider/filter_test.go:115-119 | the empty hostname does not match "example.com" |
| DomainFilter.EmptyFilterExample | pkg/provider/filter_test.go:121-125 | the empty filter does not match "app.example.com" |
| DomainFilter.BareWildcardExample | pkg/provider/filter_test.go:133-137 | the filter "*." does not match "example.com" |
| DomainFilter.TrailingDotExample | pkg/provider/filter_test.go:139-143 | "app.example.com." does not match "example.com" |
| DomainFilter.DoubleWildcardExample | pkg/provider/filter_test.go:145-149 | "*.*.com" does not match "app.example.com" |
| State.CloneEndpoint | pkg/state/types.go:65-77 | the copy equals the original in all nine fields |
| State.CloneProfile | pkg/state/types.go:36-62 | the loops rebuild the endpoint map from endpoint copies and the tag map entry by entry, and the copy equals the original in every field, CachedAt included |
| State.CloneEndpoints | pkg/state/types.go:51-54 | the endpoint loop yields a map with the same keys, each holding an equal copy of the original endpoint |
| State.CopyTags | pkg/state/types.go:56-59 | the tag loop yields a map equal to the original tags |
| State.ZeroTimeExpired | pkg/state/types.go:81-83 | a record with the zero cache time is expired under every TTL at every time |
| State.IsExpired | pkg/state/types.go:80-85 | a record never cached, or cached strictly more than the TTL ago (definition; ZeroTimeExpired, ExpiredIff, ExpiryMonotone and ExpiryAntitoneInTtl state its properties) |
| State.ExpiredIff | pkg/state/types.go:84 | a cached record is expired exactly when strictly more than the TTL has passed; one exactly TTL old is fresh |
| State.ExpiryMonotone | pkg/state/types.go:80-85 | once expired, a record stays expired at every later time |
| State.ExpiryAntitoneInTtl | pkg/state/types.go:80-85 | a record expired under a longer TTL is expired under every shorter one |
| StateManager.EndpointTotalRemove | pkg/state/manager.go:186-191 | the endpoint total is the same whichever record is taken out first, so the map's iteration order does not matter |
| StateManager.Visible | pkg/state/manager.go:28-46 | what a read sees: the record when it is stored and not expired, nothing otherwise (definition; GetProfile computes it, SetThenGet, SetThenGetExpired and DeleteThenGet state its properties) |
| StateManager.Stamped | pkg/state/manager.go:49-54 | the record as SetProfile stores it, its cache time set to the time of the call (definition; SetProfile and SetThenGet state its use) |
| StateManager.WithEndpoint | pkg/state/manager.go:146-152 | the record after SetEndpoint: the endpoint written under its name, the update and cache times set to now (definition; SetEndpoint and SetEndpointRefreshes state its use) |
| StateManager.WithoutEndpoint | pkg/state/manager.go:169-171 | the record after DeleteEndpoint: the named endpoint removed, the update and cache times set to now (definition; DeleteEndpoint and DeleteEndpointOnlyNamed state its use) |
| StateManager.EndpointTotal | pkg/state/manager.go:186-191 | the sum of the endpoint counts of the stored records (definition; GetStats reports it, EndpointTotalAdd, EndpointTotalRemove and EndpointTotalSameRecords state its properties) |
| StateManager.ExpiredKeys | pkg/state/manager.go:186-191 | the keys of the records IsExpired holds for (definition; GetStats reports its size) |
| StateManager.Manager.constructor | pkg/state/manager.go:19-25 | a new mirror is empty and keeps the given TTL |
| StateManager.Manager.GetProfile | pkg/state/manager.go:28-46 | a missing or expired record reads as absent; a fresh one comes back equal to what is stored; nothing changes |
| StateManager.Manager.SetProfile | pkg/state/manager.go:49-60 | the caller's record is stamped with the current time and only that hostname's entry changes, to the stamped record |
| StateManager.Manager.DeleteProfile | pkg/state/manager.go:63-71 | only that hostname's entry is removed |
| StateManager.Manager.ListProfiles | pkg/state/manager.go:74-84 | one copy per stored record, expired ones included, each hostname once, so the length is Count |
| StateManager.Manager.GetProfileByName | pkg/state/manager.go:87-98 | some record with that profile name is found whenever one exists, ignoring expiry; absent exactly when none exists |
| StateManager.Manager.Clear | pkg/state/manager.go:101-108 | the mirror becomes empty |
| StateManager.Manager.Count | pkg/state/manager.go:111-116 | the number of stored records |
| StateManager.Manager.GetEndpoint | pkg/state/manager.go:119-131 | an endpoint is found exactly when its record is visible (present and fresh) and holds that name, and it equals the stored endpoint |
| StateManager.Manager.SetEndpoint | pkg/state/manager.go:134-157 | no effect on a missing hostname; otherwise only that endpoint key is written and UpdatedAt and CachedAt are re-stamped |
| StateManager.Manager.DeleteEndpoint | pkg/state/manager.go:160-176 | no effect on a missing hostname; otherwise only that endpoint key is removed and the record is re-stamped |
| StateManager.Manager.GetStats | pkg/state/manager.go:179-199 | the record count, the sum of the endpoint-map sizes, the number of expired records, and the TTL |
| StateManager.SetThenGet | pkg/state/manager.go:49-54 | within the TTL, a read after a Set at a non-zero time returns the stored record stamped with the time of the Set |
| StateManager.SetAtZeroTimeInvisible | pkg/state/types.go:81-83 | a record stored at the zero time is never visible |
| StateManager.SetThenGetExpired | pkg/state/manager.go:37-43 | once the TTL has passed, the same record reads as absent |
| StateManager.OtherKeysUnaffected | pkg/state/manager.go:49-71 | a Set or Delete on one hostname leaves what every other hostname reads unchanged |
| StateManager.DeleteThenGet | pkg/state/manager.go:63-71 | after a Delete, a read reports absent |
| StateManager.SetEndpointRefreshes | pkg/state/manager.go:150-152 | after SetEndpoint the record is fresh for another full TTL, holds the new endpoint and keeps every other endpoint |
| StateManager.DeleteEndpointOnlyNamed | pkg/state/manager.go:169 | the named endpoint is gone and every other endpoint stays |
| StateManager.EndpointTotalAdd | pkg/state/manager.go:186-187 | adding a record adds its endpoint count to the total |
| StateManager.EndpointTotalSameRecords | pkg/state/manager.go:186-187 | the total depends only on the records at the keys counted |
| Sync.ToStringMapPtr | pkg/trafficmanager/profile.go:209-219 | the same keys, each value wrapped as a non-nil pointer |
| Sync.WrittenProfilesAreManaged | pkg/trafficmanager/sync.go:152-163 | a profile written with the tags ToProfileConfig produces, plus the hostname tag, is recognised as managed |
| Sync.IsManagedByUs | pkg/trafficmanager/sync.go:152-163 | the tag map exists and holds managedBy with the webhook's value (definition; WrittenProfilesAreManaged and ForeignProfilesAreNot state which profiles pass) |
| Sync.ForeignProfilesAreNot | pkg/trafficmanager/sync.go:152-163 | without the tag map, without managedBy, or with a nil or different value, a profile is not managed |
| Sync.EndpointToState | pkg/trafficmanager/sync.go:119-149 | the name is copied and both times are the conversion time; missing properties leave target, weight, priority, status and location at their zero values, and a missing type leaves it "" |
| Sync.ProfileToState | pkg/trafficmanager/sync.go:65-116 | the field assignments and the endpoint and tag loops build exactly the specified record |
| Sync.StateOf | pkg/trafficmanager/sync.go:65-116 | the cache record built from an SDK profile at a given time (definition; ProfileToState computes it, StateOfTags and StateOfBareProfile state its properties) |
| Sync.KeyedEndpoints | pkg/trafficmanager/sync.go:91-98 | the endpoint map built from the SDK list: unnamed endpoints skipped, a later name overwriting an earlier one (definition; ConvertEndpoints computes it, KeyedEndpointsKeys and KeyedEndpointsLastWins state its properties) |
| Sync.CopiedTags | pkg/trafficmanager/sync.go:101-107 | the tags whose value is not nil (definition; CopyTags computes it, StateOfTags states its use) |
| Sync.ConvertEndpoints | pkg/trafficmanager/sync.go:90-97 | the endpoint loop keys each named endpoint's state by its name, skips unnamed ones, and lets a later endpoint of the same name win |
| Sync.CopyTags | pkg/trafficmanager/sync.go:101-107 | the tag loop keeps exactly the tags whose value is not nil, with those values |
| Sync.StateOfTags | pkg/trafficmanager/sync.go:101-113 | exactly the non-nil tag values are copied, and the hostname is the copied "hostname" tag or "" |
| Sync.StateOfBareProfile | pkg/trafficmanager/sync.go:66-76 | a profile without properties gets FQDN "", TTL 0, routing method "" and no endpoints |
| Sync.KeyedEndpointsKeys | pkg/trafficmanager/sync.go:91-98 | the endpoint map holds exactly the names of the listed endpoints whose Name is present |
| Sync.KeyedEndpointsLastWins | pkg/trafficmanager/sync.go:92-96 | a named endpoint's record comes from the last listed endpoint carrying that name |
| Sync.ListProfilesInResourceGroup | pkg/trafficmanager/sync.go:39-62 | the nested page and profile loops return the managed profiles of every page, in order, or an error at the first failing page |
| Sync.ListedStates | pkg/trafficmanager/sync.go:39-62 | one group's listing: the managed records of each page in order, or no result at the first failing page (definition; ListProfilesInResourceGroup computes it, FailingPageLosesGroup states the failure case) |
| Sync.ManagedStatesMeaning | pkg/trafficmanager/sync.go:50-58 | per page, a record comes out for every managed profile and only for managed profiles, never more records than profiles |
| Sync.ManagedStates | pkg/trafficmanager/sync.go:50-58 | the converted managed profiles of one page, in page order (definition; ManagedStatesMeaning and ManagedStatesAppend state its properties) |
| Sync.ManagedStatesAppend | pkg/trafficmanager/sync.go:50-58 | filtering distributes over concatenation, so the order of the profiles is kept |
| Sync.FailingPageLosesGroup | pkg/trafficmanager/sync.go:44-48 | one failing page makes the whole group's listing fail |
| Sync.SyncProfilesFromAzure | pkg/trafficmanager/sync.go:14-36 | the loop over the resource groups concatenates their listings in order, skips the failing ones and never fails |
| Sync.SyncedStatesAppend | pkg/trafficmanager/sync.go:20-30 | the sweep over two lists of groups is the sweep of the first followed by the sweep of the second |
| Sync.SyncedStates | pkg/trafficmanager/sync.go:14-36 | the records of every group in order, a failing group contributing none (definition; SyncProfilesFromAzure computes it, SyncedStatesAppend and SyncedSingleGroup state its properties) |
| Sync.SyncedSingleGroup | pkg/trafficmanager/sync.go:21-29 | a failing group contributes nothing and a successful one contributes its listing |
| Env.GetEnv | cmd/webhook/main.go:165-170 | the value when the variable is set and non-empty, otherwise the default |
| Env.GetEnvSlice | cmd/webhook/main.go:173-194 | the default when the variable is unset or empty, otherwise the comma-separated fields of its value with the empty ones dropped |
| Env.Fields | cmd/webhook/main.go:176-191 | the comma-separated fields of a text with the empty ones dropped (definition; FieldsShape, FieldsConcat, FieldsOfOneField and SingleValue state its properties) |
| Env.SplitOnCommas | cmd/webhook/main.go:175-192 | the loop over the characters, keeping a current field and the result list, returns exactly the non-empty comma-separated fields |
| Env.FirstComma | cmd/webhook/main.go:179-184 | the position of the first comma, or the length when there is none |
| Env.FieldsStep | cmd/webhook/main.go:178-186 | one character of the loop: a comma closes a non-empty current field, any other character extends it |
| Env.FieldsEnd | cmd/webhook/main.go:188-190 | at the end, a non-empty current field is the last field |
| Env.FieldsAfterField | cmd/webhook/main.go:179-183 | a comma-free field followed by a comma is split off whole |
| Env.FieldsOfOneField | cmd/webhook/main.go:176-191 | a non-empty text without a comma is a single field, itself |
| Env.FieldsShape | cmd/webhook/main.go:176-191 | no field is empty and none contains a comma, so leading, trailing and repeated commas produce nothing |
| Env.FieldsConcat | cmd/webhook/main.go:176-191 | joining the fields gives the value with every comma removed and nothing else changed, whitespace included |
| Env.SingleValue | cmd/webhook/main.go:176-191 | a set, non-empty value without a comma reads as the one-element list of itself |
| Remote.SdkEndpointOf | pkg/trafficmanager/endpoint.go:20-32 | the endpoint sent carries the configured name and a property block |
| Remote.SdkView | pkg/trafficmanager/profile.go:63-74 | a stored profile as the SDK returns it: the tags as pointers, the FQDN and TTL, the routing method and the endpoint list (definition; GetProfileStateStep reads through it, CreatedProfileReadsBack states what comes back) |
| Remote.RemoveNamed | pkg/trafficmanager/endpoint.go:208-229 | the profile's endpoint list without the entries of the given name (definition; KeyedRemoveNamed states its effect on the cache view) |
| Remote.Upserted | pkg/trafficmanager/endpoint.go:13-52 | the endpoint list with the new endpoint written under its name, replacing any entry of that name (definition; KeyedUpserted states its effect on the cache view) |
| Remote.CreateProfileStep | pkg/trafficmanager/profile.go:13-60 | CreateProfile on the plane value: an upsert under the profile key, a new profile getting its name and no endpoints (definition; CreatedProfileReadsBack, FailingCallsChangeNothing and CallsAreLogged state its properties) |
| Remote.GetProfileStep | pkg/trafficmanager/profile.go:63-74 | GetProfile on the plane value: succeeds when the profile exists, changing nothing but the log (definition) |
| Remote.UpdateProfileStep | pkg/trafficmanager/profile.go:77-125 | UpdateProfile on the plane value: needs the profile, replaces its settings and keeps its name and endpoints (definition) |
| Remote.DeleteProfileStep | pkg/trafficmanager/profile.go:128-142 | DeleteProfile on the plane value: needs the profile and removes it with its endpoints (definition; DeletedProfileIsGone states its effect) |
| Remote.GetProfileStateStep | pkg/trafficmanager/sync.go:166-173 | GetProfileState on the plane value: the stored profile read back through profileToState (definition; RefreshSeesCreatedEndpoint states what it returns after an endpoint write) |
| Remote.EndpointUpsertStep | pkg/trafficmanager/endpoint.go:13-111 | the common endpoint write: needs the profile and replaces any endpoint of the same name by the new one (definition; KeyedUpserted states its effect on the cache view) |
| Remote.CreateEndpointStep | pkg/trafficmanager/endpoint.go:13-52 | CreateEndpoint on the plane value, sending the location for external endpoints (definition) |
| Remote.UpdateEndpointStep | pkg/trafficmanager/endpoint.go:76-111 | UpdateEndpoint on the plane value, sending the location only when it is non-empty (definition) |
| Remote.DeleteEndpointStep | pkg/trafficmanager/endpoint.go:208-229 | DeleteEndpoint on the plane value: needs the profile and removes the named endpoint, present or not (definition; KeyedRemoveNamed states its effect on the cache view) |
| Remote.EndpointResponse | pkg/trafficmanager/endpoint.go:232-262 | the returned record is stamped with the call time and carries the endpoint's name when it has one |
| Remote.ControlPlane.constructor | pkg/trafficmanager/client.go:1-59 | a plane holding the given profiles, with an empty call log and the given failure oracle |
| Remote.ControlPlane.Next | pkg/trafficmanager/client.go:1-59 | numbering a call appends it to the log and changes no profile |
| Remote.ControlPlane.CreateProfile | pkg/trafficmanager/profile.go:13-60 | an upsert under (resource group, name): a new profile is published as name + ".trafficmanager.net", an existing one keeps its name and endpoints; a failing call changes nothing |
| Remote.ControlPlane.GetProfile | pkg/trafficmanager/profile.go:63-74 | succeeds exactly when the oracle admits the call and the profile exists; nothing is stored |
| Remote.ControlPlane.UpdateProfile | pkg/trafficmanager/profile.go:77-125 | needs the profile to exist; replaces its settings and keeps its published name and endpoints |
| Remote.ControlPlane.DeleteProfile | pkg/trafficmanager/profile.go:128-142 | needs the profile to exist; removes it together with its endpoints |
| Remote.ControlPlane.GetProfileState | pkg/trafficmanager/sync.go:166-173 | a successful read returns the stored profile converted by profileToState |
| Remote.ControlPlane.CreateEndpoint | pkg/trafficmanager/endpoint.go:13-52 | an upsert of the named endpoint in an existing profile, sending the location for every external endpoint |
| Remote.ControlPlane.UpdateEndpoint | pkg/trafficmanager/endpoint.go:76-111 | the same upsert, sending the location only when it is non-empty |
| Remote.ControlPlane.DeleteEndpoint | pkg/trafficmanager/endpoint.go:208-229 | needs the profile to exist; removes the named endpoint |
| Remote.KeyedRemoveNamed | pkg/trafficmanager/sync.go:91-98 | removing a name from the endpoint list removes exactly that key from the mirror's endpoint map |
| Remote.KeyedUpserted | pkg/trafficmanager/sync.go:91-98 | an endpoint upsert writes exactly one key of the mirror's endpoint map |
| Remote.FailingCallsChangeNothing | pkg/trafficmanager/client.go:1-59 | a call the oracle fails reports failure and leaves every stored profile unchanged |
| Remote.CallsAreLogged | pkg/trafficmanager/client.go:1-59 | every call appends one log entry recording its operation, key and outcome |
| Remote.RefreshSeesCreatedEndpoint | pkg/trafficmanager/sync.go:166-173 | after a successful endpoint create, a refresh sees the new endpoint under its name and the others unchanged |
| Remote.CreatedProfileReadsBack | pkg/trafficmanager/profile.go:25-41 | a created profile reads back with its name, resource group, routing method, TTL, tags and hostname tag; a new one has FQDN name + ".trafficmanager.net" and no endpoints |
| Remote.DeletedProfileIsGone | pkg/trafficmanager/profile.go:128-142 | once DeleteProfile succeeds, neither GetProfile nor GetProfileState finds the profile |
| ProviderPlan.MergeAnnotations | pkg/provider/provider.go:200-210 | the two copy loops build exactly the merged map: Labels first, each ProviderSpecific entry written over it in order |
| ProviderPlan.MergedMeaning | pkg/provider/provider.go:200-210 | a key is in the merged map iff it is a label or some entry's name; a key no entry names keeps its label value; the last entry naming a key decides its value |
| ProviderPlan.Merged | pkg/provider/provider.go:200-210 | the labels with each ProviderSpecific entry written over them in order (definition; MergeAnnotations computes it, MergedMeaning states its keys and values) |
| ProviderPlan.Vanity | pkg/provider/provider.go:235-238 | the configured hostname, or the record's own DNS name when none is configured (definition; CnameOnlyForVanity and CreateAndDeleteNameProfilesDifferently state its use) |
| ProviderPlan.Named | pkg/provider/provider.go:241-248 | the profile name is never empty afterwards; a configured profile or endpoint name is kept; enabled flag and resource group are untouched |
| ProviderPlan.TaggedProfile | pkg/provider/provider.go:257-259 | the profile sent carries exactly the managedBy tag and the hostname tag, and the configuration's profile name and resource group |
| ProviderPlan.CreateTargets | pkg/provider/provider.go:274-280 | the targets are the record's own name for an "A" record or an empty target list, the record's targets otherwise, never empty |
| ProviderPlan.PlannedEndpoint | pkg/provider/provider.go:283-300 | the i-th planned endpoint points at the i-th target and carries the configuration's weight, priority, status and type |
| ProviderPlan.PlannedEndpointName | pkg/provider/provider.go:283-294 | the configured name with "-i" when the record has several targets, the name generated from the target when none is configured, the configured name otherwise (definition; PlannedNamesDistinct and ARecordSuffix state its properties) |
| ProviderPlan.BuildCreatePlan | pkg/provider/provider.go:233-300 | the plan a create carries out: the named configuration, its vanity hostname, the tagged profile and one endpoint per target (definition; CreatePlanShape states its shape) |
| ProviderPlan.PlanCreate | pkg/provider/provider.go:187-232 | createEndpoint up to its first remote call (definition; CreateDecision and CreatePlanShape state when it skips, rejects or proceeds, and with what) |
| ProviderPlan.CreateDecision | pkg/provider/provider.go:187-232 | a TXT record is skipped; a create goes ahead iff the record is not TXT and the merged annotations parse to an enabled, valid configuration; a rejection of a parsed configuration carries the first validation error |
| ProviderPlan.CreatePlanShape | pkg/provider/provider.go:235-294 | one planned endpoint per target, in order, with the configuration's settings; an "A" record gets one endpoint aimed at its own name; the vanity hostname is the configured one or the record's name and is the profile's hostname tag |
| ProviderPlan.PlannedNamesDistinctAt | pkg/provider/provider.go:288-294 | two different positions of the target list get different endpoint names |
| ProviderPlan.PlannedNamesDistinct | pkg/provider/provider.go:283-308 | the planned endpoints of a create have pairwise distinct names, so no create overwrites another of the same change |
| ProviderPlan.ARecordSuffix | pkg/provider/provider.go:274-294 | an "A" record with several targets still gets the "-0" suffix on its single endpoint, because the suffix follows the record's target count |
| ProviderPlan.UpdateDecision | pkg/provider/provider.go:350-420 | the profile is re-sent iff the old labels do not parse or one of the six profile settings differs; endpoints are re-sent iff the old labels parse and weight or status differs; one endpoint per new target under the configured name; the hostname is the record's own name |
| ProviderPlan.ProfileSettingsDiffer | pkg/provider/provider.go:379-385 | one of routing method, DNS TTL, monitor protocol, port, path or health checks differs (definition; UpdateDecision and WeightOnlyChange state its role) |
| ProviderPlan.BuildUpdatePlan | pkg/provider/provider.go:367-401 | the plan an update carries out: the named configuration, the tagged profile, whether the profile and the endpoints changed, one endpoint per target (definition; UpdateDecision states its meaning) |
| ProviderPlan.PlanUpdate | pkg/provider/provider.go:350-420 | updateEndpoint up to its first remote call (definition; UpdateDecision, UpdateIgnoresProviderSpecific and WeightOnlyChange state what it returns) |
| ProviderPlan.UpdateIgnoresProviderSpecific | pkg/provider/provider.go:350 | an update's decision depends on neither record's ProviderSpecific entries |
| ProviderPlan.WeightOnlyChange | pkg/provider/provider.go:379-420 | a change of weight alone re-sends no profile and does re-send the endpoints |
| ProviderPlan.DeleteDecision | pkg/provider/provider.go:441-465 | a delete goes ahead iff the labels parse to an enabled configuration, with no validation; it is rejected iff they do not parse; it makes one attempt per target |
| ProviderPlan.PlanDelete | pkg/provider/provider.go:441-465 | deleteEndpoint up to its first remote call (definition; DeleteDecision and CreateAndDeleteNameProfilesDifferently state what it returns) |
| ProviderPlan.CreateAndDeleteNameProfilesDifferently | pkg/provider/provider.go:460-462 | with a vanity hostname and no configured profile name, create and delete address different profiles when the two hostnames sanitize differently |
| Provider.ConvertToStateEndpoint | pkg/provider/provider.go:569-581 | all nine endpoint fields are carried over unchanged |
| Provider.ConvertedResponseMatchesRefresh | pkg/provider/provider.go:569-581 | what an endpoint call hands back converts to the same state a later profile read reports for that endpoint |
| Provider.AdjustEndpoints | pkg/provider/provider.go:132-140 | every endpoint passes through unchanged, in order |
| Provider.MirrorSetEndpoint | pkg/provider/provider.go:307 | the mirror after SetEndpoint on a hostname: WithEndpoint applied when the hostname is stored, unchanged otherwise (definition; UpsertOne writes the mirror through it, and UpsertTarget ensures UpsertOne) |
| Provider.MirrorDeleteEndpoint | pkg/provider/provider.go:481 | the mirror after DeleteEndpoint on a hostname: WithoutEndpoint applied when the hostname is stored, unchanged otherwise (definition; DeleteEndpointsRun writes the mirror through it, and DeleteTargetEndpoints ensures DeleteEndpointsRun) |
| Provider.UpsertEndpointsRun | pkg/provider/provider.go:283-308 | the per-target loop of create or update on the world value, stopping at the first failure and naming that endpoint (definition; CreateTargetEndpoints computes it, UpsertRunNext, UpsertRunStops, UpsertRunLog and UpsertRunRegisters state its properties) |
| Provider.UpsertOne | pkg/provider/provider.go:301-307 | one pass of the loop: the create or update call, then on success the mirror write (definition; UpsertTarget computes it, UpsertRunNext states its place in the loop) |
| Provider.UpsertRunNext | pkg/provider/provider.go:283-308 | as long as no endpoint has failed, one more target is one more pass of the loop body |
| Provider.UpsertRunStops | pkg/provider/provider.go:301-304 | once an endpoint call has failed, later endpoints are never attempted |
| Provider.UpsertRunLog | pkg/provider/provider.go:283-308 | the loop issues one call per endpoint, in order, on one profile; a failed call is the last one and names the endpoint reported; no CNAME is requested |
| Provider.UpsertRunRegisters | pkg/provider/provider.go:283-308 | after a loop without failures the profile keeps its settings and FQDN, and its endpoint map is the old one with each endpoint written over it in order |
| Provider.RegisteredHoldsEach | pkg/provider/provider.go:283-308 | with pairwise distinct names every endpoint of the loop ends up registered with its own settings |
| Provider.CreateWithoutPlanTouchesNothing | pkg/provider/provider.go:187-232 | a skipped or rejected create issues no remote call, changes no state and returns nil or the rejection's error |
| Provider.CreateRunLog | pkg/provider/provider.go:260-315 | a create that goes ahead first calls CreateProfile on the planned profile; it fails with ProfileUnavailable exactly when CreateProfile fails and the GetProfile after it does not find the profile; once the profile is found it succeeds exactly when every planned endpoint is created, whether or not the refresh succeeds; a success logs the profile step, one call per endpoint in order and one refresh; its only errors are an unavailable profile or a failed endpoint |
| Provider.CreateRun | pkg/provider/provider.go:180-342 | createEndpoint on the world value (definition; the class method CreateEndpoint computes it; CreateRunLog, CreateRegistersEndpoints, CnameOnlyForVanity and CreateWithoutPlanTouchesNothing state its properties) |
| Provider.ProceedCreate | pkg/provider/provider.go:256-341 | createEndpoint from its first remote call on (definition; ProceedCreateLog, ProceedCreateFirstCall, ProceedCreateOkLog and ProceedCreateCnames state its properties) |
| Provider.EnsureProfileStep | pkg/provider/provider.go:257-270 | CreateProfile, and GetProfile when that fails: whether the profile can be used (definition; ProceedCreateFirstCall states the calls it makes) |
| Provider.RefreshAfterCreate | pkg/provider/provider.go:310-334 | the re-read after the create loop: the profile stored under the vanity hostname and, for a vanity hostname other than the record's name with an FQDN, a CNAME request (definition; RefreshCreated computes it, ProceedCreateCnames and CnameOnlyForVanity state its properties) |
| Provider.ProceedCreateLog | pkg/provider/provider.go:256-315 | for a create past planning: ProfileUnavailable exactly when both profile calls fail, success exactly when the endpoint loop succeeds once the profile is found, and the log of a success |
| Provider.EnsureProfileFound | pkg/provider/provider.go:259-269 | the profile step finds the profile exactly when CreateProfile succeeds, or it fails and the profile exists and GetProfile succeeds; it logs one or two calls accordingly, and stores nothing when it does not find the profile |
| Provider.ProceedCreateOutcome | pkg/provider/provider.go:256-341 | a create past planning returns ProfileUnavailable exactly when the profile step fails, leaving the state as that step left it; once found, it fails exactly when the endpoint loop fails, with that loop's state and the failing endpoint's name |
| Provider.ProceedCreateFirstCall | pkg/provider/provider.go:256-269 | from the profile step on, the first call is CreateProfile on the planned profile, and the only errors are an unavailable profile or a failed endpoint |
| Provider.ProceedCreateOkLog | pkg/provider/provider.go:256-315 | from the profile step on, a successful create logs the profile step, one CreateEndpoint per planned endpoint in order, then the refresh |
| Provider.CreateRegistersEndpoints | pkg/provider/provider.go:260-308 | after a successful create the control plane holds the planned profile with every planned endpoint under its own name and settings |
| Provider.CnameOnlyForVanity | pkg/provider/provider.go:318-333 | a CNAME is requested only by a successful create, once, for a vanity hostname other than the record's name, aimed at a non-empty FQDN with TTL 300 |
| Provider.ProceedCreateCnames | pkg/provider/provider.go:310-333 | from the profile step on, a CNAME is requested only on success, once, for a vanity hostname other than the record's name, aimed at a non-empty FQDN with TTL 300 |
| Provider.CreateIgnoresCnames | pkg/provider/provider.go:318-341 | earlier CNAME requests change neither the result of a create nor what it does to the control plane and the mirror |
| Provider.UpsertRunCnameFree | pkg/provider/provider.go:283-308 | the endpoint loop neither reads nor writes the CNAME requests |
| Provider.TargetConfigs | pkg/provider/provider.go:400-401 | one endpoint setting per target, each the configuration projected onto that target |
| Provider.UpdateRunLog | pkg/provider/provider.go:379-432 | an update that goes ahead fails with ProfileUpdateFailed exactly when the profile changed and UpdateProfile failed, having made that one call and left the mirror alone; otherwise it fails exactly when the endpoints changed and an UpdateEndpoint failed, its log ending with the calls up to and including the failing endpoint, which the error names; a success logs UpdateProfile iff the profile changed, one UpdateEndpoint per target iff the endpoints changed, then one refresh |
| Provider.ProceedUpdateLog | pkg/provider/provider.go:379-432 | from the profile update on: ProfileUpdateFailed exactly when the changed profile's UpdateProfile fails, with only that call logged; otherwise failure exactly when the endpoint loop fails, with the log up to the failing endpoint; on success the log statement of UpdateRunLog |
| Provider.UpdateRun | pkg/provider/provider.go:345-433 | updateEndpoint on the world value (definition; the class method UpdateEndpoint computes it; UpdateRunLog and WeightOnlyUpdateCalls state its properties) |
| Provider.ProceedUpdate | pkg/provider/provider.go:379-432 | updateEndpoint from its first remote call on (definition; ProceedUpdateLog states its properties) |
| Provider.RefreshAfterUpdate | pkg/provider/provider.go:423-427 | the re-read after the update loop, stored under the record's own DNS name (definition; RefreshUpdated computes it) |
| Provider.OkCallsOps | pkg/provider/provider.go:400-420 | the log of a failure-free loop has one successful endpoint call per endpoint, naming it |
| Provider.WeightOnlyUpdateCalls | pkg/provider/provider.go:379-427 | a successful weight-only update issues no UpdateProfile and exactly one UpdateEndpoint per target, then the refresh |
| Provider.EndpointOnlyLog | pkg/provider/provider.go:399-427 | a log extended by successful endpoint updates for one endpoint name and a refresh holds no UpdateProfile among the new entries and one UpdateEndpoint per endpoint |
| Provider.DeleteNeverFailsOnceEnabled | pkg/provider/provider.go:436-526 | a delete returns an error iff its labels fail to parse, whatever the control plane answers |
| Provider.DeleteRun | pkg/provider/provider.go:436-526 | deleteEndpoint on the world value (definition; the class method DeleteEndpoint computes it; DeleteNeverFailsOnceEnabled, DeleteEndpointsLog and DeleteProfileIff state its properties) |
| Provider.ProceedDelete | pkg/provider/provider.go:468-525 | deleteEndpoint from its first remote call on (definition; DeleteEndpointsLog and DeleteProfileIff state its properties) |
| Provider.DeleteEndpointsRun | pkg/provider/provider.go:468-483 | the per-target delete loop: the same endpoint name each time, a failure only logged (definition; DeleteTargetEndpoints computes it, DeleteEndpointsLog states its calls) |
| Provider.DeleteEndpointsLog | pkg/provider/provider.go:468-483 | the endpoint loop makes exactly one DeleteEndpoint call per target, all for the same name and profile, and requests no CNAME change |
| Provider.DeleteProfileIff | pkg/provider/provider.go:485-520 | after the loop the profile is re-read; DeleteProfile is called iff that read reports no endpoints; the vanity mirror entry goes when the delete succeeds, is refreshed when endpoints remain, and otherwise the mirror is untouched |
| Provider.CnameRecord | pkg/provider/provider.go:106-117 | the record published for a profile is a CNAME from its hostname to its FQDN with TTL 300 |
| Provider.RecordsMeaning | pkg/provider/provider.go:88-120 | Records emits at most one record per profile, and a record is emitted iff it is the CNAME of a profile with a hostname and an FQDN whose hostname passes the domain filter |
| Provider.RecordsOf | pkg/provider/provider.go:88-120 | the CNAME records of the cached profiles that pass the filter, in order (definition; CnameRecords computes it, RecordsMeaning and RecordsAreCnames state its properties) |
| Provider.Publishable | pkg/provider/provider.go:90-103 | a cached profile with a hostname and an FQDN whose hostname passes the domain filter (definition; RecordsMeaning states that exactly these become records) |
| Provider.MirrorSynced | pkg/provider/provider.go:82-86 | the mirror after the first loop of Records: every synced profile with a hostname stored under it (definition; StoreSynced computes it) |
| Provider.RecordsAreCnames | pkg/provider/provider.go:88-120 | every emitted record is a CNAME with TTL 300, a non-empty name admitted by the domain filter and one non-empty target |
| Provider.ApplyStopsAtCreateError | pkg/provider/provider.go:152-157 | a failing create ends ApplyChanges: no update or delete is attempted |
| Provider.ApplyRun | pkg/provider/provider.go:144-177 | ApplyChanges on the world value: the creates, then the update pairs, then the deletes, stopping at the first error (definition; ApplyChanges computes it, ApplyStopsAtCreateError, CreatesStopAt, UpdatesStopAt and DeletesStopAt state its properties) |
| Provider.CreatesRun | pkg/provider/provider.go:152-157 | the create loop of ApplyChanges, stopping at the first error (definition; ApplyCreates computes it, CreatesStopAt states its properties) |
| Provider.UpdatesRun | pkg/provider/provider.go:160-165 | the update loop over the old/new pairs, stopping at the first error (definition; ApplyUpdates computes it, UpdatesStopAt states its properties) |
| Provider.DeletesRun | pkg/provider/provider.go:168-173 | the delete loop, stopping at the first error (definition; ApplyDeletes computes it, DeletesStopAt and DeletesFailOnlyOnParse state its properties) |
| Provider.CreatesStopAt | pkg/provider/provider.go:152-157 | the error of the k-th create is the error of the batch and later creates never run |
| Provider.UpdatesStopAt | pkg/provider/provider.go:160-165 | the error of the k-th update pair is the error of the batch and later pairs never run |
| Provider.DeletesStopAt | pkg/provider/provider.go:168-173 | the error of the k-th delete is the error of the batch and later deletes never run |
| Provider.DeletesFailOnlyOnParse | pkg/provider/provider.go:168-173 | the deletes stop the batch only for a record whose labels fail to parse, with that parse error |
| Provider.DecideCreate | pkg/provider/provider.go:187-280 | computes exactly the create decision: skip, rejection, or the planned profile and endpoints |
| Provider.BuildCreate | pkg/provider/provider.go:233-297 | computes exactly the create plan of a valid configuration: vanity hostname, generated names, hostname tag and one planned endpoint per target |
| Provider.DecideUpdate | pkg/provider/provider.go:350-390 | computes exactly the update decision |
| Provider.BuildUpdate | pkg/provider/provider.go:367-401 | computes exactly the update plan of a valid configuration: generated names, hostname tag and whether profile and endpoints changed |
| Provider.DecideDelete | pkg/provider/provider.go:441-465 | computes exactly the delete decision |
| Provider.TrafficManagerProvider.constructor | pkg/provider/provider.go:27-67 | the provider holds the given filter, resource groups, control plane and mirror, and has requested no CNAME |
| Provider.TrafficManagerProvider.MatchesDomainFilter | pkg/provider/filter.go:8-22 | matchesDomainFilter on the provider's own filter list (definition; DomainFilter.MatchesDomainFilterIff states its meaning) |
| Provider.TrafficManagerProvider.CreateTargetEndpoints | pkg/provider/provider.go:283-308 | performs exactly the endpoint loop of a create, stopping at the first failure |
| Provider.TrafficManagerProvider.UpsertTarget | pkg/provider/provider.go:301-307 | one pass of the endpoint loops: the create or update call, and on success the mirror write of the returned endpoint |
| Provider.TrafficManagerProvider.RefreshCreated | pkg/provider/provider.go:311-333 | performs exactly the refresh after a create: re-read, mirror under the vanity hostname, CNAME request |
| Provider.TrafficManagerProvider.CreateEndpoint | pkg/provider/provider.go:180-342 | performs exactly a create run on the current state and returns its result |
| Provider.TrafficManagerProvider.ExecuteCreate | pkg/provider/provider.go:260-341 | performs exactly a create from the profile call on |
| Provider.TrafficManagerProvider.UpdateTargetEndpoints | pkg/provider/provider.go:400-420 | performs exactly the endpoint loop of an update, which calls nothing when weight and status are unchanged |
| Provider.TrafficManagerProvider.RefreshUpdated | pkg/provider/provider.go:422-427 | performs exactly the refresh after an update, keyed by the record's own name |
| Provider.TrafficManagerProvider.UpdateEndpoint | pkg/provider/provider.go:345-433 | performs exactly an update run on the current state and returns its result |
| Provider.TrafficManagerProvider.ExecuteUpdate | pkg/provider/provider.go:379-432 | performs exactly an update from the profile call on |
| Provider.TrafficManagerProvider.DeleteTargetEndpoints | pkg/provider/provider.go:468-483 | performs exactly the delete loop, one attempt per target |
| Provider.TrafficManagerProvider.DeleteEndpoint | pkg/provider/provider.go:436-526 | performs exactly a delete run on the current state and returns its result |
| Provider.TrafficManagerProvider.ExecuteDelete | pkg/provider/provider.go:468-525 | performs exactly a delete from the endpoint loop on |
| Provider.TrafficManagerProvider.ApplyChanges | pkg/provider/provider.go:144-177 | performs exactly the creates, then the update pairs, then the deletes, returning the first error |
| Provider.TrafficManagerProvider.ApplyCreates | pkg/provider/provider.go:152-157 | performs exactly the create loop, stopping at the first error |
| Provider.TrafficManagerProvider.ApplyUpdates | pkg/provider/provider.go:160-165 | performs exactly the update-pair loop, stopping at the first error |
| Provider.TrafficManagerProvider.ApplyDeletes | pkg/provider/provider.go:168-173 | performs exactly the delete loop, stopping at the first error |
| Provider.TrafficManagerProvider.Records | pkg/provider/provider.go:71-127 | returns the CNAMEs of the synced profiles that pass the filter, and leaves each synced profile with a hostname mirrored under it |
| Provider.TrafficManagerProvider.StoreSynced | pkg/provider/provider.go:82-86 | stores every synced profile with a hostname under that hostname, in order |
| Provider.TrafficManagerProvider.CnameRecords | pkg/provider/provider.go:89-120 | returns one CNAME per publishable profile, in order |

## Left out

- The HTTP server, the webhook protocol, JSON encoding and the start-up code of cmd/webhook/main.go are not modelled; only `getEnv` and `getEnvSlice` are. The environment is a map parameter.
- The mutexes of the provider and the state manager are not modelled. Every operation runs to completion before the next, so the model has no concurrency.
- Logging (zap) is not modelled, because it does not affect any result.
- The clock is an explicit `now` parameter. Each operation reads the clock once, where the source calls `time.Now` at each stamp.
- StateManager.Manager.GetStats: returns the cache TTL as a number rather than `Duration.String` text, because duration formatting is not modelled.
- The Kubernetes DNSEndpoint client is not modelled. Its create and delete requests become ghost CNAME events whose outcome never reaches the caller, which matches the source, where failures are only logged.
- The Azure SDK and the HTTP client in pkg/trafficmanager are replaced by the in-memory control plane and the failure oracle. Request encoding, retries, authentication and Azure's own validation are not modelled.
- Remote.ControlPlane.UpdateProfile: one call that fails when the profile does not exist, where pkg/trafficmanager/profile.go:77-125 first reads the profile and then issues CreateOrUpdate, which is two SDK calls.
- A new profile's FQDN is its relative name followed by ".trafficmanager.net". Azure's DNS name allocation is not modelled.
- The listing pages of each resource group are a function parameter, because the pager is SDK code.
- The listing pages given to `Records` are independent of the control plane's stored profiles, so no lemma relates what a create writes to what a later `Records` reports. Tying the pages to the plane would need a model of the SDK pager.
- Endpoints inside a profile are keyed by name alone (`Remote.RemoveNamed`, `Remote.Upserted`, `Remote.DeleteEndpointStep`), while `DeleteEndpoint` in pkg/provider/provider.go:473 also passes the endpoint type. `ParseConfig` never reads the type, so it is always "ExternalEndpoints", and no result changes.
- Provider.TrafficManagerProvider.ApplyChanges: requires `|UpdateOld| <= |UpdateNew|`. With more old records than new ones, the Go loop would index past the end of `UpdateNew` and panic; a panic is not modelled.
- The name of an SDK profile is not optional in the model, because the source dereferences it unconditionally.
- Error texts of `strconv` and `fmt.Errorf` are not modelled. Errors are datatype values that name the field, the check or the resource that failed.
- Strings are sequences of Unicode characters, which matches the rune loops of the naming helpers. Length facts count characters, not Go's bytes, and invalid UTF-8 is not modelled.
- Annotations.ToLowerAscii: lower-cases ASCII letters only, while Go's `strings.ToLower` also folds non-ASCII letters. No non-ASCII letter lower-cases to a letter of "true", so the enabled test reaches the same verdict.
- pkg/annotations/parser_test.go:190 expects the key prefix "external-dns.alpha.kubernetes.io/", while pkg/annotations/constants.go:7 defines "webhook/traffic-manager-". The model follows the code.
- Clone aliasing is modelled by value semantics. A record handed out by the mirror is a value, so no caller can change the mirror through it, which is what the source's copies guarantee.
- A record stored at time 0 carries Go's zero time and reads as expired. The model keeps this rule as written.
