# Sparta helpers: request mocker and CloudFront site decorator

This project models the two small helpers of the repository and proves properties of them.

- **Request mocker** (`explore.dfy`, module `Explore`). `NewRawRequest` shapes the `{context, event}` envelope that the NodeJS proxy tier would POST to a Go Lambda handler under test. `NewLambdaRequest` adds a synthetic Lambda context. `NewAPIGatewayRequest` first builds an API Gateway request mock. To do that it files every whitelisted parameter (`method.request.<category>.<name>`) into the headers, query-string or path map, then fills a fixed-shape gateway context. Each entry point returns the POST it would send: verb, URL `testingURL/lambdaName`, content type and envelope.
- **CloudFront site decorator** (`decorator.dfy`, module `Decorator`). The constructor of `DistributionDecorator` names the static site's bucket `subdomain.domain`, or `domain` when there is no subdomain, and writes that name into the caller's `S3Site` at once. Its `Hook` adds two resources to the CloudFormation template. One is a Route53 A record in zone `domain.`: an alias, through CloudFront's fixed hosted-zone ID `Z2FDTNDATAQYW2`, onto the distribution. The other is a CloudFront distribution: its single origin `S3Origin` is the site bucket, and its cache behaviour targets that origin.
- Helper modules:
  - `Segments`: Go's `strings.Split` on one character, and `Join`, with both round trips proved.
  - `Decimal`: Go's `%d` rendering of integers and its parser, with the round trip proved.
  - `Wrappers`: `Option` and `Result`.

Go's `nil` for an `interface{}` value is `None`. `CloudFormationResourceName` is a function parameter `(string, string) -> string`. The site bucket's own logical name, which `S3Site.CloudFormationS3ResourceName` computes, is a string parameter. `GetAtt` is the symbolic reference `StringExpr.GetAtt`. The template is a class that holds a map from logical name to `Resource`. `AddResource` stores a resource under its name and replaces any earlier entry there.

Two choices about edge cases:

- The code (decorator/distribution.go:53-56) checks only that each pointer is non-nil, so an empty suffix is used as-is. `IndexDocument` does the same.
- A key with fewer than three segments makes the code panic at `parts[2]`. The model rejects it with the unknown-category error instead (see Findings).

## Model

| member | source | states |
|---|---|---|
| Explore.NewRawRequest | explore/explore.go:49-65 | The envelope always maps "context" to the given context. It has an "event" key exactly when event data is non-nil, mapped to that data. Reading the envelope back gives the (context, event) pair. The target is `testingURL + "/" + lambdaName`, verb POST, content type application/json. |
| Explore.LambdaContext | explore/explore.go:84-93 | The synthetic context has exactly the eight keys. Five fixed values are stated. InvokeID, LogStreamName and the ARN are built from the clock. |
| Explore.InvokeId | explore/explore.go:86 | The invocation ID is the `%d` rendering of the Unix second followed by `-` and the fixed mock request ID. |
| Explore.LogStreamName | explore/explore.go:88 | The log stream name is the `year/month/day` date (`LogStreamDate`, the `%d/%d/%d` part) followed by `/[$LATEST]` and then the `%d` rendering of the Unix second. |
| Explore.FunctionArn | explore/explore.go:92 | The ARN is the fixed `...:function:SpartaMockFunction-` prefix followed by the `%d` rendering of the Unix second. |
| Explore.FunctionArnDeterminesSecond | explore/explore.go:92 | Two ARNs are equal only if they were built at the same Unix second. |
| Explore.InvokeIdDeterminesSecond | explore/explore.go:86 | Two invocation IDs are equal only if they were built at the same Unix second, because `%d` rendering is unambiguous. |
| Explore.NewLambdaRequest | explore/explore.go:81-96 | The POST goes to `testingURL/lambdaName`. Its envelope holds the synthetic context built at `now` and the given event data. |
| Explore.ThirdSegmentAsWritten | explore/explore.go:115-116 | `parts[2]` as written: defined only for keys with at least three segments. The result is one dot-free segment. |
| Explore.AsWrittenCrashesOnShortKey | explore/explore.go:115-116 | The key "method.request" splits into two segments, so `parts[2]` is out of range for it. |
| Explore.Category | explore/explore.go:115-116 | A key has a category exactly when it contains at least two dots. The category is then the as-written third segment. |
| Explore.KindOf | explore/explore.go:117-125 | A category is supported exactly when it is "header", "querystring" or "path", and each of the three maps to its own kind. |
| Explore.ClassifyCases | explore/explore.go:116-125 | A key is supported exactly when its third segment exists and is one of the three categories, and it is filed under the kind named by that segment. |
| Explore.WhitelistKeyCategory | explore/explore.go:112-116 | For a key `a.b.cat.name` with dot-free `a`, `b` and `cat`, the category is `cat`, whatever dots `name` holds. |
| Explore.ShortKeyRejected | explore/explore.go:115-116 | A key with fewer than two dots is rejected, not indexed out of range. |
| Explore.Filed | explore/explore.go:111-122 | A key is in the map of one kind exactly when it is among the processed keys, in the whitelist, and of that kind. Its value is the whitelist value. |
| Explore.ParamsOfKind | explore/explore.go:111-122 | Every whitelist key of a kind is in that kind's map under the full key with its value unchanged. The map holds nothing else. |
| Explore.FiledStep | explore/explore.go:117-122 | Filing one key adds it, with its value, to the map of its own kind and leaves the other two maps unchanged. |
| Explore.SingleEntryParams | explore/explore.go:111-122 | A one-entry whitelist lands whole in the map of its key's kind; the other maps are empty. |
| Explore.ParamsPartition | explore/explore.go:107-122 | When every key is supported, the union of the three maps is exactly the whitelist. |
| Explore.ParamsDisjoint | explore/explore.go:111-122 | The header, query-string and path maps are pairwise disjoint, whatever the whitelist holds. |
| Explore.UnsupportedKeyBlocks | explore/explore.go:123-124 | One key of an unsupported category makes the whole whitelist unacceptable. |
| Explore.NewAPIGatewayMock | explore/explore.go:103-146 | Succeeds exactly when every key is supported. On success the method and `context.method` equal `httpMethod`, data equals the event data, the three maps are the per-kind restrictions of the whitelist, and the context fields are the fixed literals (app ID `spartaApp<pid>`). On failure the error names some whitelist key that is not supported. |
| Explore.FillContext | explore/explore.go:128-146 | After the field-by-field assignments, the context has `appId` `spartaApp<pid>`, `method` equal to the request method, and the fixed literals: request ID, resource ID `anon42`, resource path `/mock`, stage `mock`, and the identity with account `123412341234`, source IP `127.0.0.1`, user `Unknown`, user agent `Mozilla/Gecko`, the rest empty. |
| Explore.NewAPIGatewayRequest | explore/explore.go:103-147 | If some key is unsupported: the error naming such a key, and no request. Otherwise: a POST to `testingURL/lambdaName` whose envelope holds the synthetic Lambda context and, as its always-present event, the gateway mock described above. |
| Explore.QueryStringKeyExample | explore/explore.go:119-120 | `{"method.request.querystring.id": "42"}` gives `queryParams` equal to that map, with empty headers and path parameters. |
| Explore.CookieKeyRejected | explore/explore.go:116-124 | `method.request.cookie.session` has no supported category. |
| Explore.CookieWhitelistFails | explore/explore.go:123-124 | A whitelist holding `method.request.cookie.session` is rejected. |
| Explore.WhitelistError.Message | explore/explore.go:124 | The error message ends with the offending key. |
| Segments.Split | explore/explore.go:115 | `strings.Split` on one character: one segment more than there are separators, and no segment contains the separator. |
| Segments.JoinSplit | explore/explore.go:115 | Joining the segments with the separator gives back the original key. |
| Segments.SplitJoin | explore/explore.go:115 | Splitting a join of separator-free segments gives back the segments. |
| Segments.SplitPrefix | explore/explore.go:115 | A separator-free prefix followed by the separator is the first segment; the rest splits on its own. |
| Segments.SplitSingle | explore/explore.go:115 | A separator-free string is a single segment. |
| Decimal.NatToDecimal | explore/explore.go:128 | `%d` of a natural number is a non-empty string of digits, with a leading zero only for zero. |
| Decimal.NatRoundTrip | explore/explore.go:128 | Parsing the digits of `n` gives back `n`. |
| Decimal.IntToDecimal | explore/explore.go:86 | `%d` of an integer is an integer literal, and it starts with '-' exactly when the integer is negative. |
| Decimal.IntRoundTrip | explore/explore.go:86 | Parsing `%d` of `i` gives back `i`. |
| Decimal.IntToDecimalInjective | explore/explore.go:88 | Distinct integers render to distinct strings. |
| Decorator.BucketName | decorator/distribution.go:17-20 | `subdomain + "." + domainName` for a non-empty subdomain, else `domainName`. The domain is always a suffix of the name. |
| Decorator.BucketNameInjective | decorator/distribution.go:17-20 | Different subdomains of one domain never give the same bucket name. |
| Decorator.HostedZoneName | decorator/distribution.go:38 | The zone is the domain followed by exactly one trailing dot. |
| Decorator.HostedZoneIgnoresSubdomain | decorator/distribution.go:38-41 | The record's hosted-zone name is the same whatever the subdomain. |
| Decorator.ConfiguredSuffix | decorator/distribution.go:53-55 | A suffix is configured exactly when website configuration, index document and suffix are all non-nil, and it is then that suffix. |
| Decorator.IndexDocument | decorator/distribution.go:52-57 | The configured suffix when website configuration, index document and suffix are all present; otherwise "index.html". |
| Decorator.IndexDocumentExamples | decorator/distribution.go:52-57 | Suffix "home.html" gives "home.html". No website configuration gives "index.html". An empty suffix is used as-is. |
| Decorator.DnsRecord | decorator/distribution.go:39-49 | An A record named after the bucket, in zone `domainName.`. It is an alias with hosted-zone ID "Z2FDTNDATAQYW2" whose DNS name is `GetAtt(distroName, "DomainName")`. |
| Decorator.Distribution | decorator/distribution.go:59-80 | Aliases are the one-element list of the site's bucket name. Query strings are not forwarded and the viewer policy is "allow-all". The single origin is the site bucket's `GetAtt(..., "DomainName")` with an empty S3 origin configuration, and the cache behaviour targets that origin's ID. |
| Decorator.Decorate | decorator/distribution.go:32-82 | Exactly the two logical names are added and every other entry is unchanged. With distinct names, the record's alias resolves to the distribution stored in the same template. If the names coincided, the distribution would overwrite the record. |
| Decorator.AliasMatchesRecordName | decorator/distribution.go:42-60 | While the site keeps the decorator's bucket name, the distribution's only alias is the record's name. |
| Decorator.Template.AddResource | decorator/distribution.go:50 | Stores the resource under its logical name and leaves every other entry as it was. |
| Decorator.DistributionDecorator.constructor | decorator/distribution.go:15-21 | The site's bucket name is set to the computed bucket name at construction, before any hook runs. Its website configuration is untouched. |
| Decorator.DistributionDecorator.Hook | decorator/distribution.go:24-83 | The template becomes `Decorate` of its old resources, with names taken from the resource-name function and the site read at hook time. The hook returns no error. While the site keeps its bucket name, the distribution's aliases are that name, whatever the two logical names are. |

## Left out

- JSON marshalling of the envelope is not modelled, nor its failure path (explore/explore.go:60-63). Which values Go's encoder rejects depends on their runtime types, and those are type parameters here.
- The HTTP side is not modelled. That covers `http.NewRequest` and its ignored error (explore/explore.go:66), `http.Client.Do` and the `panic` on a transport error (explore/explore.go:70-73), and the returned response. All of it is I/O. Each entry point returns the request it would send instead.
- Wall-clock time and the process ID are parameters (`Clock`, `pid`), because they come from the environment. Go's 64-bit width for them is not modelled.
- Go's map iteration order is a nondeterministic choice (`:|`) in `Explore.NewAPIGatewayMock`. Which unsupported key the error names is deliberately left open.
- Explore.NewAPIGatewayMock: does not reproduce the panic on a key with fewer than three segments. It returns the unsupported-parameter error instead (see Findings).
- `sparta.CloudFormationResourceName` and `S3Site.CloudFormationS3ResourceName` are parameters, because their code is not part of this model. So is their stability across synthesis runs. The model states what happens when the two logical names differ and when they coincide.
- The go-cloudformation `Template.AddResource` code is not part of this model. It is modelled as a store into the resource map under the logical name.
- The hook parameters `context`, `serviceName`, `S3Bucket`, `buildID`, `awsSession`, `noop` and `logger` are not modelled, because the hook never reads them.
- A nil `s3Site` is not modelled. Dafny references here are non-null, and the Go code would only dereference nil.
- The JSON field names of the mock structs are not modelled. Dafny field names follow the JSON tags in camel case, except that `method` is `httpMethod` because `method` is a Dafny keyword.

## Findings

| source | as written | input that shows it | evidently intended | confidence | as-written member | corrected member |
|---|---|---|---|---|---|---|
| explore/explore.go:115-116 | `parts[2]` is indexed without checking that the key has three segments | whitelist key `method.request` (one dot): `parts` has two elements, so the index is out of range and Go panics | reject the key with the same "Unsupported whitelist param value" error as an unknown category | high (not executed) | Explore.AsWrittenCrashesOnShortKey | Explore.ShortKeyRejected |
