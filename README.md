# A Dafny model of the cnk3x/caddy plugin bundle

This project models the Caddy build of cnk3x/caddy: the first-party `gopkg`
plugin together with the plugins vendored into it. It covers the following
pieces. Each one is pure or sequential and does not depend on the network.

- **olaf gateway.** The route compiler
  (`caddyconfig/builder/builder.go`) turns services, routes and plugins into
  Caddy routing rules. It sorts routes by priority, picks plugins by scope,
  orders them by `OrderAfter` chains, and builds URI-rewrite, canary,
  reverse-proxy, header and static-response fragments. The YAML store
  (`store/yaml/store.go`) runs a pass that names and scopes the decoded
  entities, and offers lookups and list methods over the result. These are
  `OlafEntity`, `OlafAddress`, `OlafFragments`, `OlafPlugins`, `OlafProxy`,
  `OlafBuilder` and `OlafStore`.
- **greenpau/versioned.** Version parsing, rendering and increments, the
  version file and the package banner (`VersionedVersion`). The Markdown
  table of contents (`VersionedToc`). Licence headers, both adding and
  stripping them, over file contents given as bytes (`VersionedLicense`).
- **smallstep certificate authority.** The X.509 sign options: validators,
  validity-window modifiers, the forced common name and the provisioner
  extension (`SmallstepSignOptions`). The SSH side (`SmallstepSSH`). The
  configuration's defaults, validation and audiences (`SmallstepConfig`). The
  provisioner template options (`SmallstepOptions`). Revocation request
  checks (`SmallstepRevoke`). The x509util template data (`StepTemplates`).
- **Other plugins.**
  - the SCGI transport's netstring request encoding and status parsing
    (`ScgiClient`);
  - the MaxMind geolocation matcher and its Caddyfile block
    (`MaxmindGeolocation`);
  - the geoipupdate configuration file reader (`GeoipupdateConfig`);
  - the per-token quantity limiter (`QuantityLimiter`);
  - the power-of-two size-class allocator of memory-go, with its de Bruijn
    most-significant-bit lookup (`MemoryAllocator`);
  - the TLS version and cipher log filters (`TlsFormat`);
  - the auth-portal redirect URL helpers (`AuthPortalRedirect`);
  - the Alibaba Cloud DNS request-parameter list and string to sign
    (`AlidnsClient`);
  - the caddy-supervisor process definitions (`SupervisorDefinition`);
  - the `gopkg` vanity import directive and handler (`Gopkg`).

Four modules are shared helpers:
- `Wrappers` holds Option and Result.
- `GoStrings` models the Go `strings`, `bytes` and `strconv` functions the
  code calls.
- `GoTime` models time as integer nanoseconds.
- `Caddyfile` is the token list that Caddyfile parsers read from.

Go code that updates objects in place is modelled with Dafny classes and
methods. Examples are versioned's `Version` and `PackageManager`, the table
of contents, the licence header, the template data, the YAML store, the
quantity limiter's counters and the allocator's pools. Each method's `ensures` ties the new state to a specification
function. Pure Go code is modelled as functions, each with lemmas about its
result. Foreign parsers are passed in as function-valued parameters
("oracles"): regular expressions, `time.ParseDuration`, URL and IP parsing,
codecs, template rendering and signing. Map iteration order is passed in as
an input sequence.

## Model

| member | source | states |
|---|---|---|
| AlidnsClient.NewCredInfo | vendor/github.com/libdns/alidns/aliSimple.go:19-57 | no credentials without a key ID or a secret; otherwise both are kept and the region defaults to cn-hangzhou |
| AlidnsClient.InitialParams | vendor/github.com/libdns/alidns/aliSimple.go:97-105 | every request starts with the seven parameters AccessKeyId, Format, SignatureMethod, SignatureNonce, SignatureVersion, Timestamp and Version, in that order |
| AlidnsClient.APIHost | vendor/github.com/libdns/alidns/aliSimple.go:20 | the endpoint is the scheme (http when none) followed by "://alidns.aliyuncs.com/" |
| AlidnsClient.Keys | vendor/github.com/libdns/alidns/aliSimple.go:40-43 | the keys of the parameters, in order |
| AlidnsClient.KeyIndex | vendor/github.com/libdns/alidns/aliSimple.go:149-151 | the position of the first parameter with the key |
| AlidnsClient.InitialKeysUnique | vendor/github.com/libdns/alidns/aliSimple.go:97-105 | the initial parameters have distinct keys |
| AlidnsClient.InsertByKey | vendor/github.com/libdns/alidns/aliSimple.go:117 | inserting into a key-sorted list keeps it sorted and adds exactly the one parameter |
| AlidnsClient.SortByKey | vendor/github.com/libdns/alidns/aliSimple.go:117 | the sorted parameters are a permutation of the originals in ascending key order |
| AlidnsClient.SortSortedIsIdentity | vendor/github.com/libdns/alidns/aliSimple.go:117 | sorting sorted parameters changes nothing |
| AlidnsClient.StringLeAt | vendor/github.com/libdns/alidns/aliSimple.go:206-208 | string order is decided by the first differing character |
| AlidnsClient.InitialParamsSorted | vendor/github.com/libdns/alidns/aliSimple.go:97-105 | the initial parameters are already in key order |
| AlidnsClient.AdjacentSorted | vendor/github.com/libdns/alidns/aliSimple.go:206-208 | key order of neighbours gives key order of every pair |
| AlidnsClient.URLEncode | vendor/github.com/libdns/alidns/aliSimple.go:187-194 | '+' becomes %20, '*' becomes %2A and %7E becomes '~', and the result is query-escaped |
| AlidnsClient.URLEncodeRemovesPlusAndStar | vendor/github.com/libdns/alidns/aliSimple.go:189-190 | what reaches the query escaper holds neither '+' nor '*' |
| AlidnsClient.StringToSign | vendor/github.com/libdns/alidns/aliSimple.go:160-166 | the method (GET when none), "%2F" and the encoded query, joined by '&' |
| AlidnsClient.StringToSignStartsWithMethod | vendor/github.com/libdns/alidns/aliSimple.go:160-166 | the signed string starts with the method and "&%2F&", so the method can be read back |
| AlidnsClient.EncodedPairs | vendor/github.com/libdns/alidns/aliSimple.go:168-177 | one escaped "key=value" pair per parameter, in order |
| AlidnsClient.AliClient.constructor | vendor/github.com/libdns/alidns/aliSimple.go:95-108 | a client holds the endpoint, the parameters and the secret, with no signature |
| AlidnsClient.AliClient.AddReqBody | vendor/github.com/libdns/alidns/aliSimple.go:126-141 | refuses an empty key with an empty value and a key already present, changing nothing; otherwise appends the parameter |
| AlidnsClient.AliClient.SetReqBody | vendor/github.com/libdns/alidns/aliSimple.go:143-158 | replaces the first parameter with the key in place; an error, changing nothing, when the key is absent or key and value are both empty |
| AlidnsClient.AliClient.SignReq | vendor/github.com/libdns/alidns/aliSimple.go:113-124 | refuses an empty secret or parameter list; otherwise sorts the parameters by key and signs the string built from them under the secret followed by '&' |
| AlidnsClient.AddKeepsKeysUnique | vendor/github.com/libdns/alidns/aliSimple.go:132-138 | adding a parameter keeps the keys distinct |
| AlidnsClient.SetKeepsKeys | vendor/github.com/libdns/alidns/aliSimple.go:149-151 | setting a parameter keeps the keys in order, and the key reads back the new value |
| AlidnsClient.KeyIndexIs | vendor/github.com/libdns/alidns/aliSimple.go:149-151 | the first position holding the key is its index |
| AlidnsClient.SortKeepsKeysUnique | vendor/github.com/libdns/alidns/aliSimple.go:117 | sorting keeps distinct keys distinct |
| AlidnsClient.GetAliClientSche | vendor/github.com/libdns/alidns/aliSimple.go:87-111 | an error and an empty client without credentials; otherwise a client for the scheme's endpoint with the seven initial parameters and the secret, and no signature yet |
| AuthPortalRedirect.HeaderGet | vendor/github.com/greenpau/caddy-auth-portal/pkg/utils/redirect.go:69 | the first value stored under the name, or "" |
| AuthPortalRedirect.CurrentBaseURL | vendor/github.com/greenpau/caddy-auth-portal/pkg/utils/redirect.go:68-100 | the forwarded or connection scheme, "://", the forwarded host or the Host, then ":" and the forwarded port unless it is absent or the scheme's default |
| AuthPortalRedirect.ForwardedHeadersWin | vendor/github.com/greenpau/caddy-auth-portal/pkg/utils/redirect.go:69-80 | non-empty X-Forwarded-Host and X-Forwarded-Proto win over the Host and the connection |
| AuthPortalRedirect.DefaultPortIsDropped | vendor/github.com/greenpau/caddy-auth-portal/pkg/utils/redirect.go:84-97 | forwarding the scheme's default port gives the same URL as forwarding none |
| AuthPortalRedirect.BasePath | vendor/github.com/greenpau/caddy-auth-portal/pkg/utils/redirect.go:24-30 | the base path is always a prefix of the request path |
| AuthPortalRedirect.BasePathFirstMatch | vendor/github.com/greenpau/caddy-auth-portal/pkg/utils/redirect.go:24-28 | the first token that occurs decides: the path up to its first occurrence |
| AuthPortalRedirect.BasePathSkips | vendor/github.com/greenpau/caddy-auth-portal/pkg/utils/redirect.go:24-29 | tokens that do not occur are skipped |
| AuthPortalRedirect.BasePathNoMatch | vendor/github.com/greenpau/caddy-auth-portal/pkg/utils/redirect.go:30 | with no token occurring the base path is the whole path |
| AuthPortalRedirect.EmptyTokenMatchesAtStart | vendor/github.com/greenpau/caddy-auth-portal/pkg/utils/redirect.go:25 | an empty token occurs at position 0, so it gives the empty base path |
| AuthPortalRedirect.GetBaseURL | vendor/github.com/greenpau/caddy-auth-portal/pkg/utils/redirect.go:23-31 | the loop returns the base URL and the specified base path |
| AuthPortalRedirect.RelativeURL | vendor/github.com/greenpau/caddy-auth-portal/pkg/utils/redirect.go:34-40 | the base URL, the path up to the first occurrence of orig (none of it when orig does not occur), then repl |
| AuthPortalRedirect.RelativeURLShape | vendor/github.com/greenpau/caddy-auth-portal/pkg/utils/redirect.go:34-40 | the relative URL is the base URL, a prefix of the path, and the replacement |
| AuthPortalRedirect.CurrentURL | vendor/github.com/greenpau/caddy-auth-portal/pkg/utils/redirect.go:43-45 | the base URL followed by exactly the path |
| AuthPortalRedirect.TrimAfterLastSlash | vendor/github.com/greenpau/caddy-auth-portal/pkg/utils/redirect.go:53-58 | the trimmed string is a prefix ending in '/', or empty, and what was cut holds no '/' |
| AuthPortalRedirect.IssuerURL | vendor/github.com/greenpau/caddy-auth-portal/pkg/utils/redirect.go:48-65 | the current URL, cut after its last '/' when it ends in "callback" |
| AuthPortalRedirect.TrimAfterLastSlashUnique | vendor/github.com/greenpau/caddy-auth-portal/pkg/utils/redirect.go:53-58 | any prefix ending in '/' that leaves no '/' behind is the cut TrimRightFunc makes |
| AuthPortalRedirect.TrimCallback | vendor/github.com/greenpau/caddy-auth-portal/pkg/utils/redirect.go:50-58 | cutting "base/callback" after its last '/' gives "base/" |
| AuthPortalRedirect.IssuerOfCallback | vendor/github.com/greenpau/caddy-auth-portal/pkg/utils/redirect.go:48-65 | an issuer URL ending in "/callback" drops just "callback" |
| GeoipupdateConfig.ApplyRefuses | vendor/github.com/maxmind/geoipupdate/v4/pkg/geoipupdate/config.go:69-111 | a key fails exactly for an account ID that is not a number, a PreserveFileTimes other than 0 or 1, a RetryFor that is not a non-negative duration, or an unknown key |
| GeoipupdateConfig.DeprecatedIgnored | vendor/github.com/maxmind/geoipupdate/v4/pkg/geoipupdate/config.go:101-102 | Protocol, SkipHostnameVerification and SkipPeerVerification are accepted and ignored |
| GeoipupdateConfig.ApplyMarksAliases | vendor/github.com/maxmind/geoipupdate/v4/pkg/geoipupdate/config.go:76-83 | keys seen stay seen, and AccountID/UserId and EditionIDs/ProductIds each mark both names |
| GeoipupdateConfig.ApplySets | vendor/github.com/maxmind/geoipupdate/v4/pkg/geoipupdate/config.go:70-108 | the account ID, edition IDs (split into fields), PreserveFileTimes (set only by "1"), RetryFor, LicenseKey and cleaned DatabaseDirectory take the line's value |
| GeoipupdateConfig.ParseLine | vendor/github.com/maxmind/geoipupdate/v4/pkg/geoipupdate/config.go:52-62 | blank and '#' lines are skipped; otherwise the first field is the key and the rest, joined by single spaces, the value |
| GeoipupdateConfig.ParseKeyValue | vendor/github.com/maxmind/geoipupdate/v4/pkg/geoipupdate/config.go:57-62 | a key and a one-word value are read back from "key value" |
| GeoipupdateConfig.SkipAndMalformed | vendor/github.com/maxmind/geoipupdate/v4/pkg/geoipupdate/config.go:53-60 | skipped lines change nothing; a key without a value is an error naming the line |
| GeoipupdateConfig.ReadLineMarksKey | vendor/github.com/maxmind/geoipupdate/v4/pkg/geoipupdate/config.go:64-67 | a line read without error marks its key, and keys are never forgotten |
| GeoipupdateConfig.ReaderTracksKeys | vendor/github.com/maxmind/geoipupdate/v4/pkg/geoipupdate/config.go:64-67 | the line reader refuses a key already seen and marks the keys it reads |
| GeoipupdateConfig.SeenGrows | vendor/github.com/maxmind/geoipupdate/v4/pkg/geoipupdate/config.go:50-112 | keys seen early in the file are still seen later |
| GeoipupdateConfig.RepeatedKeyRefused | vendor/github.com/maxmind/geoipupdate/v4/pkg/geoipupdate/config.go:64-66 | with a key-tracking step, the same key on two lines makes the later line fail |
| GeoipupdateConfig.RepeatedKeyRejected | vendor/github.com/maxmind/geoipupdate/v4/pkg/geoipupdate/config.go:64-66 | the same key on two lines of a file makes the later line fail |
| GeoipupdateConfig.ScanAllNext | vendor/github.com/maxmind/geoipupdate/v4/pkg/geoipupdate/config.go:50-112 | the scan of one more line reads that line, numbered from 1 |
| GeoipupdateConfig.ScanErrorSticks | vendor/github.com/maxmind/geoipupdate/v4/pkg/geoipupdate/config.go:50-112 | once a line fails, the whole scan fails with that error |
| GeoipupdateConfig.SchemeCharsLength | vendor/github.com/maxmind/geoipupdate/v4/pkg/geoipupdate/config.go:173 | the leading run of scheme characters |
| GeoipupdateConfig.SchemeMatch | vendor/github.com/maxmind/geoipupdate/v4/pkg/geoipupdate/config.go:173-184 | a capture is a letter of (?i)[a-z] (an ASCII letter, the Kelvin sign or the long s) followed by scheme characters, ending right at "://" |
| GeoipupdateConfig.ParseProxy | vendor/github.com/maxmind/geoipupdate/v4/pkg/geoipupdate/config.go:175-222 | nothing for an empty setting; http:// when no scheme is given; only http and socks5; the parsed URL's scheme, host and path, with ":1080" added to a host that holds no ':'; credentials in the URL win over ProxyUserPassword |
| GeoipupdateConfig.SplitN2Rejoin | vendor/github.com/maxmind/geoipupdate/v4/pkg/geoipupdate/config.go:215 | the two parts of a cut joined by the separator give the string back |
| GeoipupdateConfig.MalformedUserPasswordRejected | vendor/github.com/maxmind/geoipupdate/v4/pkg/geoipupdate/config.go:215-218 | a ProxyUserPassword without ':' is refused when the URL carries no user |
| GeoipupdateConfig.FinishNeedsKeys | vendor/github.com/maxmind/geoipupdate/v4/pkg/geoipupdate/config.go:118-128 | EditionIDs, AccountID and LicenseKey are required and checked in that order |
| GeoipupdateConfig.FinishDefaults | vendor/github.com/maxmind/geoipupdate/v4/pkg/geoipupdate/config.go:132-155 | RetryFor defaults to five minutes; the directory argument wins over the file's, which wins over the default; the lock file lies in that directory; the URL is https to Host or updates.maxmind.com |
| GeoipupdateConfig.FinishKeeps | vendor/github.com/maxmind/geoipupdate/v4/pkg/geoipupdate/config.go:145-160 | the file's values are kept, verbose is the argument's, and the proxy is the parsed Proxy setting |
| GeoipupdateConfig.LegacyAccountRejected | vendor/github.com/maxmind/geoipupdate/v4/pkg/geoipupdate/config.go:162-168 | the legacy free account (0 or 999999 with licence key 000000000000) is refused |
| GeoipupdateConfig.ReadPair | vendor/github.com/maxmind/geoipupdate/v4/pkg/geoipupdate/config.go:64-111 | one "key value" line: a key seen before is refused, a new one is marked and applied |
| GeoipupdateConfig.ReadLines | vendor/github.com/maxmind/geoipupdate/v4/pkg/geoipupdate/config.go:50-112 | the scanning loop gives the specified scan of the lines |
| GeoipupdateConfig.NewConfig | vendor/github.com/maxmind/geoipupdate/v4/pkg/geoipupdate/config.go:31-171 | NewConfig is the scan followed by the checks and defaults |
| GeoipupdateConfig.ReadConfig | vendor/github.com/maxmind/geoipupdate/v4/pkg/geoipupdate/config.go:31-171 | NewConfig on the lines of the file, without a contract of its own; the method NewConfig returns it, and the lemmas on the scan and on Finish state the checks and defaults |
| Gopkg.Parse | gopkg/gopkg.go:100-127 | the loop gives the configs and error of the specified directive reader |
| Gopkg.TwoArgumentsUseGit | gopkg/gopkg.go:111-117 | "gopkg path uri" gives one config using git |
| Gopkg.ThreeArgumentsGiveVcs | gopkg/gopkg.go:118-121 | "gopkg path vcs uri" gives one config with the vcs given |
| Gopkg.WrongArgumentCount | gopkg/gopkg.go:107-109 | any other number of arguments is an argument error at the last token of the line, and no further directive is read |
| Gopkg.ArgsEndPrefix | gopkg/gopkg.go:105 | the arguments of a directive in the first part of a file are the same as in that part alone |
| Gopkg.ArgsEndSuffix | gopkg/gopkg.go:105 | the arguments of a directive in the second part are those it has in that part alone |
| Gopkg.ParseSuffix | gopkg/gopkg.go:103-124 | reading the second part of a file from within it is reading it alone |
| Gopkg.Directive | gopkg/gopkg.go:111-121 | the path is the first argument and the URI the last; the vcs is git for two arguments and the middle one for three |
| Gopkg.ParseStep | gopkg/gopkg.go:103-124 | one directive is read at a token: its arguments, then either an error or its config followed by the rest |
| Gopkg.ParseConcat | gopkg/gopkg.go:103-126 | directives are read in file order: split at a line break, the configs of the whole file are those of its first part followed by those of its second |
| Gopkg.ParseConcatDirective | gopkg/gopkg.go:103-124 | a directive of the first part reads the same in the whole file |
| Gopkg.ParseConcatDirectiveNext | gopkg/gopkg.go:103-124 | one directive of the first part extends the concatenation |
| Gopkg.FirstMatch | gopkg/gopkg.go:48-52 | the first config from position k on whose pattern compiles and matches the path, and none when no such config exists |
| Gopkg.FirstAnswerDecides | gopkg/gopkg.go:48-81 | the first config that answers decides, and the ones after it are not looked at |
| Gopkg.NoAnswerDelegates | gopkg/gopkg.go:83 | with no config answering, the request goes to the next handler |
| Gopkg.UncompilableSkipped | gopkg/gopkg.go:49-51 | a config whose pattern does not compile is skipped |
| Gopkg.FirstMatchShift | gopkg/gopkg.go:48-52 | skipping a config that does not answer shifts the match by one |
| Gopkg.AnsweredRequests | gopkg/gopkg.go:54-80 | a request answered by a config is redirected exactly when go-get is not "1", and never goes to the next handler |
| Gopkg.ServeHTTP | gopkg/gopkg.go:47-84 | the response and status are those of the specified handler: a redirect returns 0, a page 200, a render failure 500, and otherwise the next handler's status |
| Gopkg.Serve | gopkg/gopkg.go:47-84 | the response of ServeHTTP, without a contract of its own; FirstAnswerDecides states that the first answering configuration decides it, NoAnswerDelegates the fall-through, and AnsweredRequests that an answer is a redirect exactly when go-get is not 1 |
| MaxmindGeolocation.Normalise | vendor/github.com/porech/caddy-maxmind-geolocation/main.go:169-171 | "" and "0" are read as "UNK", anything else as itself |
| MaxmindGeolocation.CheckAllowedCases | vendor/github.com/porech/caddy-maxmind-geolocation/main.go:168-189 | with a deny list, allowed exactly when not denied; else with an allow list, exactly when allowed; with neither, always |
| MaxmindGeolocation.DenyTakesPrecedence | vendor/github.com/porech/caddy-maxmind-geolocation/main.go:172-179 | with a deny list the allow list makes no difference |
| MaxmindGeolocation.UnknownAlike | vendor/github.com/porech/caddy-maxmind-geolocation/main.go:169-171 | an empty item, "0" and "UNK" are judged alike |
| MaxmindGeolocation.CheckAllowedLoop | vendor/github.com/porech/caddy-maxmind-geolocation/main.go:168-189 | the loops decide as the specification does |
| MaxmindGeolocation.MatchExactly | vendor/github.com/porech/caddy-maxmind-geolocation/main.go:191-249 | a request matches exactly when a country list is set, its address parses and is found, and the country, every subdivision (or the unknown one when there are none) and the metro code are allowed |
| MaxmindGeolocation.ZeroMetroIsUnknown | vendor/github.com/porech/caddy-maxmind-geolocation/main.go:243 | a metro code of 0 is judged as "UNK" |
| MaxmindGeolocation.KeywordOf | vendor/github.com/porech/caddy-maxmind-geolocation/main.go:103-117 | the seven keywords select lists 1 to 7 |
| MaxmindGeolocation.ValueWithoutKeyword | vendor/github.com/porech/caddy-maxmind-geolocation/main.go:135-136 | a value before any keyword is an error that changes nothing |
| MaxmindGeolocation.ReadSnoc | vendor/github.com/porech/caddy-maxmind-geolocation/main.go:101-139 | each token is applied in turn, and nothing after an error |
| MaxmindGeolocation.ListValuesAppend | vendor/github.com/porech/caddy-maxmind-geolocation/main.go:106-124 | values after allow_countries are appended to that list in order, which stays current |
| MaxmindGeolocation.DbPathTakesOne | vendor/github.com/porech/caddy-maxmind-geolocation/main.go:104-122 | db_path takes exactly one value, and then no list is current |
| MaxmindGeolocation.MaxmindGeolocation.constructor | vendor/github.com/porech/caddy-maxmind-geolocation/main.go:147 | a new matcher has every list empty and no database path |
| MaxmindGeolocation.MaxmindGeolocation.UnmarshalCaddyfile | vendor/github.com/porech/caddy-maxmind-geolocation/main.go:99-142 | the fields and the error are those the specified reader gives |
| MaxmindGeolocation.MaxmindGeolocation.Matches | vendor/github.com/porech/caddy-maxmind-geolocation/main.go:191-249 | the answer is the specified match on the configured lists |
| MaxmindGeolocation.ReadErrorSticks | vendor/github.com/porech/caddy-maxmind-geolocation/main.go:135-136 | once the reader has stopped on an error, later tokens change nothing |
| MaxmindGeolocation.CheckAllowed | vendor/github.com/porech/caddy-maxmind-geolocation/main.go:168-189 | checkAllowed, without a contract of its own; CheckAllowedCases states that a deny list decides alone, then an allow list, and that with neither everything is allowed |
| MaxmindGeolocation.Match | vendor/github.com/porech/caddy-maxmind-geolocation/main.go:191-249 | the matcher's verdict, without a contract of its own; MatchExactly states when a request matches |
| MemoryAllocator.TopFive | vendor/github.com/imgk/memory-go/memory.go:117 | the top five bits of the 32-bit product index the 32-entry table |
| MemoryAllocator.TopBit | vendor/github.com/imgk/memory-go/memory.go:111-117 | a non-zero value has a most significant set bit |
| MemoryAllocator.SmearTop | vendor/github.com/imgk/memory-go/memory.go:112-116 | the shift-or cascade leaves exactly the bits up to the top one set |
| MemoryAllocator.LookupTable | vendor/github.com/imgk/memory-go/memory.go:110-117 | the multiplier 0x07C4ACDD and the table form a de Bruijn lookup: each of the 32 smeared values selects its own top bit's position |
| MemoryAllocator.TopBitBounds | vendor/github.com/imgk/memory-go/memory.go:108-118 | the top bit's position k bounds the value between 2^k and 2^(k+1) |
| MemoryAllocator.MsbSpec | vendor/github.com/imgk/memory-go/memory.go:108-118 | msb(v) is floor(log2 v) for every non-zero uint32 |
| MemoryAllocator.Log2 | vendor/github.com/imgk/memory-go/memory.go:106-107 | floor(log2 n) lies between consecutive powers of two around n |
| MemoryAllocator.Log2Unique | vendor/github.com/imgk/memory-go/memory.go:106-107 | only one exponent brackets a number between consecutive powers of two |
| MemoryAllocator.MsbIsLog2 | vendor/github.com/imgk/memory-go/memory.go:108-118 | msb agrees with floor(log2) on every non-zero uint32 |
| MemoryAllocator.Pow2At16 | vendor/github.com/imgk/memory-go/memory.go:66-79 | 2^16 is the 65536-byte limit of pooling |
| MemoryAllocator.ClassOf | vendor/github.com/imgk/memory-go/memory.go:61-91 | a size up to 64 KiB is served by the least power of two not below it, one of the 17 classes, wasting less than half the buffer |
| MemoryAllocator.PutClass | vendor/github.com/imgk/memory-go/memory.go:97-103 | Put takes back exactly a capacity that is a power of two between 1 and 64 KiB, into that power's class |
| MemoryAllocator.GetThenPut | vendor/github.com/imgk/memory-go/memory.go:75-104 | every buffer Get serves from a class is taken back by Put into that class |
| MemoryAllocator.Allocator.NewAllocator | vendor/github.com/imgk/memory-go/memory.go:64-72 | 17 classes, class k allocating 1 << k bytes, every pool empty |
| MemoryAllocator.Allocator.Get | vendor/github.com/imgk/memory-go/memory.go:75-92 | nothing for n <= 0; a new n-byte buffer above 64 KiB; otherwise a buffer from the pool of the least power of two not below n |
| MemoryAllocator.Allocator.Put | vendor/github.com/imgk/memory-go/memory.go:96-104 | a buffer whose capacity is a power of two up to 64 KiB goes back to its class's pool; any other is refused and nothing changes |
| OlafAddress.AddDefaultPort | vendor/github.com/RussellLuo/olaf/caddyconfig/builder/builder.go:630-638 | "" and an address with a ':' are kept; any other address gets ":80" appended, so the result is a prefix extension with a ':' |
| OlafAddress.AddDefaultPortIdempotent | vendor/github.com/RussellLuo/olaf/caddyconfig/builder/builder.go:630-638 | adding the default port twice is the same as adding it once |
| OlafAddress.NewNetAddr | vendor/github.com/RussellLuo/olaf/caddyconfig/builder/builder.go:599-628 | a "udp/" address is rejected; a "unix/" address is accepted, whole, exactly when it starts with "unix//"; any other address, after an optional "tcp/", gets the default port and is accepted as that tcp address exactly when it is non-empty and matches the TCP address format, else it is an invalid TCP address |
| OlafAddress.TcpPortIsSecondPart | vendor/github.com/RussellLuo/olaf/caddyconfig/builder/builder.go:573-574 | the port the dial check inspects is the second part of SplitN(address, ":", 2), which exists for every normalised TCP address |
| OlafAddress.BuildUpstream | vendor/github.com/RussellLuo/olaf/caddyconfig/builder/builder.go:563-591 | the entry has exactly the key "dial", plus "max_requests" holding the value only when it is positive |
| OlafAddress.BuildUpstreamAccepts | vendor/github.com/RussellLuo/olaf/caddyconfig/builder/builder.go:563-591 | an entry is built exactly when newNetAddr accepts the URL and, for TCP, the port holds no '-'; it dials the normalised address |
| OlafAddress.PortSpecWithoutRange | vendor/github.com/RussellLuo/olaf/caddyconfig/builder/builder.go:17 | a port matching `\d+(-\d+)?` without '-' is a plain run of digits |
| OlafAddress.DialedTcpPortIsDigits | vendor/github.com/RussellLuo/olaf/caddyconfig/builder/builder.go:571-580 | a TCP address that is dialled has a single, non-empty, all-digit port |
| OlafBuilder.SplitPaths | vendor/github.com/RussellLuo/olaf/caddyconfig/builder/builder.go:86-98 | every regexp pattern has a name and no other name is kept |
| OlafBuilder.SplitPathsNormal | vendor/github.com/RussellLuo/olaf/caddyconfig/builder/builder.go:86-98 | the normal paths are exactly the paths that are not regexp paths, in order and with repeats |
| OlafBuilder.SplitPathsDistinct | vendor/github.com/RussellLuo/olaf/caddyconfig/builder/builder.go:89-94 | every regexp pattern is listed once |
| OlafBuilder.SplitPathsPatterns | vendor/github.com/RussellLuo/olaf/caddyconfig/builder/builder.go:90-94 | a pattern is listed exactly when some input path is a regexp path with that pattern |
| OlafBuilder.SplitPathsLastName | vendor/github.com/RussellLuo/olaf/caddyconfig/builder/builder.go:94 | the name of a pattern is that of the last path with the pattern: a later entry overwrites an earlier one |
| OlafBuilder.BuildMatchSound | vendor/github.com/RussellLuo/olaf/caddyconfig/builder/builder.go:100-114 | a match keeps its path key and has a protocol, method, host or header key exactly when the matcher sets it, holding the matcher's value |
| OlafBuilder.RegexpMatchList | vendor/github.com/RussellLuo/olaf/caddyconfig/builder/builder.go:124-131 | one path_regexp match per pattern, in pattern order, named as the pattern's name |
| OlafBuilder.RouteMatchesSound | vendor/github.com/RussellLuo/olaf/caddyconfig/builder/builder.go:86-134 | one match for the normal paths first when there are any, then one per distinct regexp pattern, each carrying the matcher's other fields |
| OlafBuilder.BuildRouteMatches | vendor/github.com/RussellLuo/olaf/caddyconfig/builder/builder.go:86-134 | the matches are those of the matcher's specification (split then build) |
| OlafBuilder.SplitMatcherPaths | vendor/github.com/RussellLuo/olaf/caddyconfig/builder/builder.go:88-98 | the splitting loop computes the specified normal paths and pattern names |
| OlafBuilder.RegexpMatches | vendor/github.com/RussellLuo/olaf/caddyconfig/builder/builder.go:123-131 | the loop over the patterns builds the specified match list |
| OlafBuilder.PluginRoutesSound | vendor/github.com/RussellLuo/olaf/caddyconfig/builder/builder.go:154-163 | the plugin routes are built exactly when every applied plugin's are, and are then each plugin's routes concatenated in turn |
| OlafBuilder.PluginRoutesWithoutCanary | vendor/github.com/RussellLuo/olaf/caddyconfig/builder/builder.go:155-162 | with no canary plugin there is exactly one handler route per applied plugin, in order |
| OlafBuilder.SubRoutesStatic | vendor/github.com/RussellLuo/olaf/caddyconfig/builder/builder.go:137-143 | a static route yields exactly one subroute holding the static_response handler, whatever the plugins and the service |
| OlafBuilder.SubRoutesErrors | vendor/github.com/RussellLuo/olaf/caddyconfig/builder/builder.go:145-168 | a proxy route fails exactly when plugin selection, a plugin, or the service's proxy fails, with the first of these errors |
| OlafBuilder.SubRoutesProxyLast | vendor/github.com/RussellLuo/olaf/caddyconfig/builder/builder.go:145-168 | a built proxy route is the unmatched URI fragments, then the plugin routes, then the route's own unmatched reverse proxy, last |
| OlafBuilder.BuildSubRoutes | vendor/github.com/RussellLuo/olaf/caddyconfig/builder/builder.go:136-169 | the appending loop computes the specified subroutes |
| OlafBuilder.BuildPluginRoutes | vendor/github.com/RussellLuo/olaf/caddyconfig/builder/builder.go:154-163 | the plugin loop computes the specified concatenation |
| OlafBuilder.InsertRoutePermutes | vendor/github.com/RussellLuo/olaf/caddyconfig/builder/builder.go:79-81 | inserting a route into the sorted prefix adds exactly that route |
| OlafBuilder.InsertRouteSorted | vendor/github.com/RussellLuo/olaf/caddyconfig/builder/builder.go:79-81 | insertion keeps the list in non-increasing priority |
| OlafBuilder.InsertRouteStable | vendor/github.com/RussellLuo/olaf/caddyconfig/builder/builder.go:79-81 | a route goes after the routes of equal priority already placed |
| OlafBuilder.SortRoutesSound | vendor/github.com/RussellLuo/olaf/caddyconfig/builder/builder.go:73-84 | the sorted routes run from highest priority to lowest, are a permutation of the input, and keep the input order among equal priorities |
| OlafBuilder.BuildRuleShape | vendor/github.com/RussellLuo/olaf/caddyconfig/builder/builder.go:42-50 | each rule matches by the route's matcher and holds exactly one subroute handler wrapping the route's subroutes |
| OlafBuilder.BuildSound | vendor/github.com/RussellLuo/olaf/caddyconfig/builder/builder.go:31-54 | the build succeeds exactly when every route's rule does, and then holds one rule per route in the order of the stable priority sort |
| OlafBuilder.BuildRejectsMissingService | vendor/github.com/RussellLuo/olaf/caddyconfig/builder/builder.go:38-40 | a route whose service is missing makes the whole build fail |
| OlafBuilder.BuildRoutes | vendor/github.com/RussellLuo/olaf/caddyconfig/builder/builder.go:31-54 | the build method computes the specified build |
| OlafBuilder.BuildRules | vendor/github.com/RussellLuo/olaf/caddyconfig/builder/builder.go:37-51 | the loop builds one rule per route in the given order, stopping at the first error |
| OlafBuilder.BuildRuleFor | vendor/github.com/RussellLuo/olaf/caddyconfig/builder/builder.go:38-50 | the loop body: the missing-service check, then the route's matches and subroutes |
| OlafBuilder.Build | vendor/github.com/RussellLuo/olaf/caddyconfig/builder/builder.go:31-54 | the rules of Build, without a contract of its own; BuildSound states that it succeeds exactly when every route's rule does, with one rule per route in the order of the stable priority sort, and the method Build returns it |
| OlafBuilder.SortRoutes | vendor/github.com/RussellLuo/olaf/caddyconfig/builder/builder.go:73-84 | sortRoutes as a stable insertion sort, without a contract of its own; SortRoutesSound states that the result is a permutation running from highest priority to lowest that keeps the input order among equal priorities |
| OlafBuilder.RouteMatches | vendor/github.com/RussellLuo/olaf/caddyconfig/builder/builder.go:86-134 | the matches of buildRouteMatches, without a contract of its own; RouteMatchesSound states one match for the normal paths first, then one per distinct regexp pattern, each with the matcher's other fields |
| OlafBuilder.SubRoutes | vendor/github.com/RussellLuo/olaf/caddyconfig/builder/builder.go:145-168 | the sub-routes of buildSubRoutes, without a contract of its own; SubRoutesErrors gives its errors in order, and SubRoutesProxyLast gives the URI fragments, the plugin routes and the reverse proxy last |
| OlafFragments.BuildStaticResponse | vendor/github.com/RussellLuo/olaf/caddyconfig/builder/builder.go:56-71 | one static_response handler with the status code; headers, body and close appear exactly when non-empty or true, with their values, and no other key |
| OlafFragments.AddRouteMatcher | vendor/github.com/RussellLuo/olaf/caddyconfig/builder/builder.go:216-221 | "match" is set to the one-element matcher list only when both the route and the matcher are non-empty; every other key is kept |
| OlafFragments.TargetPath | vendor/github.com/RussellLuo/olaf/caddyconfig/builder/builder.go:190-195 | TargetPath is used when set; otherwise AddPrefix+"$" when AddPrefix is set, else nothing |
| OlafFragments.StripHandler | vendor/github.com/RussellLuo/olaf/caddyconfig/builder/builder.go:172-181 | a rewrite handler with strip_path_prefix and strip_path_suffix exactly when they are non-empty, and no other key |
| OlafFragments.ManipulateUri | vendor/github.com/RussellLuo/olaf/caddyconfig/builder/builder.go:171-214 | the strip fragment comes first and only when a prefix or suffix is set, the rewrite fragment last and only when there is a target; every fragment carries the matcher exactly when it is non-empty |
| OlafFragments.RewriteReplacesFirstDollar | vendor/github.com/RussellLuo/olaf/caddyconfig/builder/builder.go:196-199 | only the first '$' of the target becomes {http.request.uri.path}: the text before it is kept and the rest is kept verbatim, one '$' fewer |
| OlafFragments.RewriteWithoutDollar | vendor/github.com/RussellLuo/olaf/caddyconfig/builder/builder.go:196-199 | a target without '$' is used unchanged |
| OlafFragments.ManipulateHeader | vendor/github.com/RussellLuo/olaf/caddyconfig/builder/builder.go:549-561 | set, add and delete keys appear exactly when their lists are non-empty, holding them, and no other key |
| OlafFragments.PluginRouteHandler | vendor/github.com/RussellLuo/olaf/caddyconfig/builder/builder.go:333-343 | the plugin handler has exactly the Config keys plus "handler"; Config values are copied and "handler" is the Type unless Config sets it |
| OlafFragments.WordRun | vendor/github.com/RussellLuo/olaf/caddyconfig/builder/builder.go:19 | the length of the leading run of \w characters |
| OlafFragments.MatchKeyVar | vendor/github.com/RussellLuo/olaf/caddyconfig/builder/builder.go:19 | a match of `^\{(\w+)\.(.+)\}$` yields a well-formed location and name that rebuild the input |
| OlafFragments.MatchKeyVarComplete | vendor/github.com/RussellLuo/olaf/caddyconfig/builder/builder.go:19 | every well-formed "{location.name}" is matched with that location and name |
| OlafFragments.ParseVar | vendor/github.com/RussellLuo/olaf/caddyconfig/builder/builder.go:407-430 | a key the pattern does not match, or whose location is not path/query/header/cookie/body, is rejected; otherwise the result is the request placeholder of that location and name |
| OlafFragments.ParseVarComplete | vendor/github.com/RussellLuo/olaf/caddyconfig/builder/builder.go:407-430 | every well-formed key of a recognised location is accepted and mapped to its placeholder |
| OlafPlugins.Bucket | vendor/github.com/RussellLuo/olaf/caddyconfig/builder/builder.go:230-245 | a scope bucket holds only enabled plugins of that scope and key, taken from the input |
| OlafPlugins.AddPluginsConcat | vendor/github.com/RussellLuo/olaf/caddyconfig/builder/builder.go:255-266 | adding two lists of candidates in turn is adding their concatenation |
| OlafPlugins.FirstOfType | vendor/github.com/RussellLuo/olaf/caddyconfig/builder/builder.go:250-254 | the index of the first candidate of a Type, or -1 when there is none |
| OlafPlugins.AddPluginsKeyed | vendor/github.com/RussellLuo/olaf/caddyconfig/builder/builder.go:249-254 | the typed map is keyed by Type and its key order lists each key once |
| OlafPlugins.AddPluginsCovers | vendor/github.com/RussellLuo/olaf/caddyconfig/builder/builder.go:249-254 | every Type among the candidates gets a plugin |
| OlafPlugins.AddPluginsFirstWins | vendor/github.com/RussellLuo/olaf/caddyconfig/builder/builder.go:250-254 | the plugin kept for a Type is the first candidate of that Type |
| OlafPlugins.Walk | vendor/github.com/RussellLuo/olaf/caddyconfig/builder/builder.go:290-315 | a successful walk only adds Types of the typed map, including the start's, to the processed set |
| OlafPlugins.CheckEmpties | vendor/github.com/RussellLuo/olaf/caddyconfig/builder/builder.go:324-328 | the check passes exactly when every plugin without OrderAfter was reached by a walk |
| OlafPlugins.SortPlugins | vendor/github.com/RussellLuo/olaf/caddyconfig/builder/builder.go:273-279 | a single typed plugin is returned unchanged |
| OlafPlugins.ReversedKeeps | vendor/github.com/RussellLuo/olaf/caddyconfig/builder/builder.go:317-321 | appending the stack in reverse keeps the set of Types, distinctness and origin |
| OlafPlugins.WalkSound | vendor/github.com/RussellLuo/olaf/caddyconfig/builder/builder.go:290-315 | a walk fails with a cycle when it revisits a pending Type and with a dangling error when an OrderAfter Type is missing; otherwise it keeps its stack a chain and its processed set exact |
| OlafPlugins.AppendChain | vendor/github.com/RussellLuo/olaf/caddyconfig/builder/builder.go:317-321 | appending a finished chain in reverse keeps every plugin after the plugin of its OrderAfter Type |
| OlafPlugins.SortFromSound | vendor/github.com/RussellLuo/olaf/caddyconfig/builder/builder.go:284-330 | the outer loop, from any reachable state, ends in an ordered permutation of the typed plugins or an error |
| OlafPlugins.SortPluginsSound | vendor/github.com/RussellLuo/olaf/caddyconfig/builder/builder.go:272-331 | a successful sort is a permutation of the typed plugins in which each comes after the plugin of its OrderAfter Type; with more than one plugin, each without OrderAfter is someone's OrderAfter |
| OlafPlugins.PosBefore | vendor/github.com/RussellLuo/olaf/caddyconfig/builder/builder.go:284-322 | in a sorted output a plugin's OrderAfter Type sits strictly before it |
| OlafPlugins.SortPluginsRejectsDangling | vendor/github.com/RussellLuo/olaf/caddyconfig/builder/builder.go:310-313 | an OrderAfter Type that is not among the plugins makes the sort fail |
| OlafPlugins.SortPluginsRejectsCycle | vendor/github.com/RussellLuo/olaf/caddyconfig/builder/builder.go:295-299 | any OrderAfter cycle makes the sort fail |
| OlafPlugins.CycleDescends | vendor/github.com/RussellLuo/olaf/caddyconfig/builder/builder.go:284-322 | along a cycle each step goes strictly left in a sorted output, so no sorted output has a cycle |
| OlafPlugins.SortPluginsRejectsUnordered | vendor/github.com/RussellLuo/olaf/caddyconfig/builder/builder.go:324-328 | with two or more plugins, one without OrderAfter that nothing is ordered after is rejected |
| OlafPlugins.SortPluginsByOrderAfter | vendor/github.com/RussellLuo/olaf/caddyconfig/builder/builder.go:272-331 | the loop over processed, pending and the stack computes the specified sort |
| OlafPlugins.WalkChain | vendor/github.com/RussellLuo/olaf/caddyconfig/builder/builder.go:290-315 | the inner loop computes the specified walk |
| OlafPlugins.AppendReversed | vendor/github.com/RussellLuo/olaf/caddyconfig/builder/builder.go:317-321 | the stack is appended in reverse |
| OlafPlugins.CandidatesInScope | vendor/github.com/RussellLuo/olaf/caddyconfig/builder/builder.go:255-266 | the candidates are enabled plugins in scope of the route, in precedence order |
| OlafPlugins.SortPluginsPermutes | vendor/github.com/RussellLuo/olaf/caddyconfig/builder/builder.go:272-331 | whatever the number of plugins, a successful sort lists each typed plugin once |
| OlafPlugins.AppliedPluginsSound | vendor/github.com/RussellLuo/olaf/caddyconfig/builder/builder.go:224-269 | the applied plugins are enabled, in scope, one per Type, each the first candidate of its Type in the order route+service, route, service, global; every candidate Type is represented; with more than one they are ordered by OrderAfter |
| OlafPlugins.FindAppliedPlugins | vendor/github.com/RussellLuo/olaf/caddyconfig/builder/builder.go:224-269 | bucketing, adding by precedence and sorting compute the specified applied plugins |
| OlafPlugins.BucketSnoc | vendor/github.com/RussellLuo/olaf/caddyconfig/builder/builder.go:230-245 | one more plugin extends exactly the bucket its RouteName/ServiceName put it in |
| OlafPlugins.BucketPlugins | vendor/github.com/RussellLuo/olaf/caddyconfig/builder/builder.go:225-245 | the bucketing loop fills the three keyed maps and the global list with the specified buckets |
| OlafPlugins.AddAll | vendor/github.com/RussellLuo/olaf/caddyconfig/builder/builder.go:255-266 | addPlugin applied to each candidate in turn |
| OlafPlugins.AppliedPlugins | vendor/github.com/RussellLuo/olaf/caddyconfig/builder/builder.go:224-269 | the plugins findAppliedPlugins selects, without a contract of its own; AppliedPluginsSound states they are enabled, in scope, one per Type and the first candidate of each Type in the order route+service, route, service, global |
| OlafPlugins.SortFrom | vendor/github.com/RussellLuo/olaf/caddyconfig/builder/builder.go:284-330 | the outer loop of sortPluginsByOrderAfter from a given state, without a contract of its own; SortFromSound states it ends in an ordered permutation of the typed plugins or an error |
| OlafProxy.ParseField | vendor/github.com/RussellLuo/olaf/caddyconfig/builder/builder.go:454-459 | a duration setting is accepted exactly when time.ParseDuration accepts it, with its value; otherwise the build aborts naming the setting and the service |
| OlafProxy.Transport | vendor/github.com/RussellLuo/olaf/caddyconfig/builder/builder.go:452-465 | the transport has exactly protocol "http" and the dial timeout, zero when unset; a bad timeout aborts |
| OlafProxy.Policy | vendor/github.com/RussellLuo/olaf/caddyconfig/builder/builder.go:469-472 | the selection policy is the configured one, or "random" when unset |
| OlafProxy.LoadBalancer | vendor/github.com/RussellLuo/olaf/caddyconfig/builder/builder.go:468-492 | the policy is always there; try_duration and interval appear exactly when set, parsed; a bad one aborts, try duration first |
| OlafProxy.HealthCheck | vendor/github.com/RussellLuo/olaf/caddyconfig/builder/builder.go:495-523 | the URI is always there; port, interval, timeout and expect_status appear exactly when set or positive; a bad duration aborts, interval first |
| OlafProxy.ProxyHeaders | vendor/github.com/RussellLuo/olaf/caddyconfig/builder/builder.go:525-532 | "request" holds the HeaderUp operations and "response" the HeaderDown ones, each exactly when present |
| OlafProxy.Dial | vendor/github.com/RussellLuo/olaf/caddyconfig/builder/builder.go:448 | one dial entry is built exactly when buildUpstream accepts the backend |
| OlafProxy.BuildUpstreamsSound | vendor/github.com/RussellLuo/olaf/caddyconfig/builder/builder.go:446-450 | the upstream list is built exactly when every backend is valid, then one dial entry per backend in order; otherwise the error of the first invalid backend |
| OlafProxy.Put | vendor/github.com/RussellLuo/olaf/caddyconfig/builder/builder.go:452-523 | an absent setting leaves the handler as it is; a failing one aborts; a built one is stored under its key |
| OlafProxy.AssembleErrors | vendor/github.com/RussellLuo/olaf/caddyconfig/builder/builder.go:452-523 | the handler is built exactly when every present setting is valid, and the first invalid one (transport, load balancing, health checks) is the error |
| OlafProxy.AssembleKeys | vendor/github.com/RussellLuo/olaf/caddyconfig/builder/builder.go:438-535 | each optional key is present exactly when its setting is, and no key beyond handler, upstreams and the four settings |
| OlafProxy.AssembleValues | vendor/github.com/RussellLuo/olaf/caddyconfig/builder/builder.go:438-535 | handler and upstream keys are always set, and each setting's key holds its built value |
| OlafProxy.TransportSetting | vendor/github.com/RussellLuo/olaf/caddyconfig/builder/builder.go:452-465 | the transport setting is present exactly when HTTP is configured and carries the transport's result |
| OlafProxy.LoadBalancingSetting | vendor/github.com/RussellLuo/olaf/caddyconfig/builder/builder.go:468-492 | the load-balancing setting is present exactly when configured and carries its result |
| OlafProxy.HealthCheckSetting | vendor/github.com/RussellLuo/olaf/caddyconfig/builder/builder.go:495-523 | the health-check setting is present exactly when configured and holds the active checks under "active" |
| OlafProxy.ProxyHeadersPresent | vendor/github.com/RussellLuo/olaf/caddyconfig/builder/builder.go:526-535 | the headers are there exactly when HeaderUp or HeaderDown is set |
| OlafProxy.ProxyHandleErrors | vendor/github.com/RussellLuo/olaf/caddyconfig/builder/builder.go:433-450 | a missing upstream, then an empty backend list, then the first bad backend abort, before any setting is looked at |
| OlafProxy.ProxyHandlerKeys | vendor/github.com/RussellLuo/olaf/caddyconfig/builder/builder.go:438-535 | a built handler has a transport, load-balancing, health-check or headers key exactly when the upstream configures it, and no other key besides handler and upstreams |
| OlafProxy.ProxyHandlerValues | vendor/github.com/RussellLuo/olaf/caddyconfig/builder/builder.go:438-535 | a built handler is a reverse_proxy over the dial entries, and each configured setting holds its built value |
| OlafProxy.ProxyHandlerErrors | vendor/github.com/RussellLuo/olaf/caddyconfig/builder/builder.go:452-523 | the handler is built exactly when every configured setting is valid; the first invalid one aborts |
| OlafProxy.ReverseProxyRoute | vendor/github.com/RussellLuo/olaf/caddyconfig/builder/builder.go:432-547 | one route holding the handler, with "match" exactly when the matcher is non-empty; errors of the handler are passed on |
| OlafProxy.ReverseProxy | vendor/github.com/RussellLuo/olaf/caddyconfig/builder/builder.go:432-547 | building the handler map and the upstream list step by step gives the specified route |
| OlafProxy.BuildHandler | vendor/github.com/RussellLuo/olaf/caddyconfig/builder/builder.go:438-535 | updating the handler map setting by setting gives the specified handler |
| OlafProxy.DialAll | vendor/github.com/RussellLuo/olaf/caddyconfig/builder/builder.go:446-449 | the loop over the backends gives the specified upstream list |
| OlafProxy.ProxyDialsEveryBackend | vendor/github.com/RussellLuo/olaf/caddyconfig/builder/builder.go:446-450 | every backend contributes its own dial entry, in backend order |
| OlafProxy.CanaryKey | vendor/github.com/RussellLuo/olaf/caddyconfig/builder/builder.go:373-381 | the key expression is the placeholder of the key, wrapped as type(var) when a type is set; a bad key aborts |
| OlafProxy.CanaryMatcher | vendor/github.com/RussellLuo/olaf/caddyconfig/builder/builder.go:360-390 | a non-empty advanced matcher is used and excludes key, type and whitelist; otherwise a bad key or an empty whitelist aborts, else the matcher is the expression with every '$' replaced by the key expression |
| OlafProxy.Canary | vendor/github.com/RussellLuo/olaf/caddyconfig/builder/builder.go:345-395 | a non-canary plugin yields nothing; an undecodable config or a missing upstream service aborts; otherwise the routes of the decoded config |
| OlafProxy.CanaryRoutesShareMatcher | vendor/github.com/RussellLuo/olaf/caddyconfig/builder/builder.go:366-392 | successful canary routes are the URI fragments followed by the proxy, all carrying the same non-empty matcher |
| OlafProxy.CanaryRoutesValue | vendor/github.com/RussellLuo/olaf/caddyconfig/builder/builder.go:366-392 | successful canary routes are exactly the URI fragments of the config followed by the proxy route |
| OlafProxy.CanarySharesMatcher | vendor/github.com/RussellLuo/olaf/caddyconfig/builder/builder.go:345-395 | a successful canary expansion is the URI fragments then the proxy to the canary upstream, all under the same non-empty matcher |
| OlafProxy.CanaryExpressionReplacesEveryDollar | vendor/github.com/RussellLuo/olaf/caddyconfig/builder/builder.go:386 | with a key free of '$', no '$' of the whitelist is left in the expression |
| OlafStore.Backends | vendor/github.com/RussellLuo/olaf/store/yaml/store.go:196-202 | one backend per URL, in order, each with the upstream's max_requests |
| OlafStore.ConvertUpstream | vendor/github.com/RussellLuo/olaf/store/yaml/store.go:194-225 | the backends, an HTTP transport always set, the header operations, load balancing exactly when a policy, try duration or interval is set, and active health checks exactly when a health URI is set, with the upstream's values |
| OlafStore.Normalized | vendor/github.com/RussellLuo/olaf/store/yaml/store.go:239-271 | the k-th plugin of a list is named prefix+k when unnamed, takes the Type of the plugin before it as OrderAfter when it has none and k > 0, and gets the service and route names of its scope (global plugins are not re-scoped) |
| OlafStore.NormalizedList | vendor/github.com/RussellLuo/olaf/store/yaml/store.go:239-271 | each plugin of a list is normalised at its own position |
| OlafStore.ServiceAt | vendor/github.com/RussellLuo/olaf/store/yaml/store.go:189-230 | the i-th service is named service_i when unnamed, and has an upstream exactly when the document gives one, converted |
| OlafStore.RouteAt | vendor/github.com/RussellLuo/olaf/store/yaml/store.go:232-237 | the j-th route is named <service>_route_j when unnamed and gets the enclosing ServiceName; nothing else changes |
| OlafStore.RoutesOf | vendor/github.com/RussellLuo/olaf/store/yaml/store.go:232-237 | every route of a service, each normalised at its position |
| OlafStore.ServiceList | vendor/github.com/RussellLuo/olaf/store/yaml/store.go:189-230 | every service of the document, in order |
| OlafStore.PutAllConcat | vendor/github.com/RussellLuo/olaf/store/yaml/store.go:227 | storing two lists of entries is storing the first, then the second |
| OlafStore.PutAllSnoc | vendor/github.com/RussellLuo/olaf/store/yaml/store.go:227 | storing one more entry overwrites its name |
| OlafStore.PutAllLookup | vendor/github.com/RussellLuo/olaf/store/yaml/store.go:227 | a name is present exactly when it was before or some entry has it, and it holds the last entry with that name |
| OlafStore.PutAllHas | vendor/github.com/RussellLuo/olaf/store/yaml/store.go:227 | every entry's name is present after storing |
| OlafStore.PutAllFrom | vendor/github.com/RussellLuo/olaf/store/yaml/store.go:183-187 | from empty maps, every stored value is one of the entries, under its own name |
| OlafStore.Parse | vendor/github.com/RussellLuo/olaf/store/yaml/store.go:183-274 | the nested loops fill the three maps exactly as the specification of the pass does |
| OlafStore.AddService | vendor/github.com/RussellLuo/olaf/store/yaml/store.go:189-262 | one outer step stores the service, then its routes with their plugins, then its own plugins |
| OlafStore.ConvertService | vendor/github.com/RussellLuo/olaf/store/yaml/store.go:189-230 | the loop body's service is the i-th specified service |
| OlafStore.BuildBackends | vendor/github.com/RussellLuo/olaf/store/yaml/store.go:196-202 | the backends loop gives one backend per URL |
| OlafStore.AddServiceRoutes | vendor/github.com/RussellLuo/olaf/store/yaml/store.go:232-250 | the routes of a service are stored each followed by its plugins |
| OlafStore.AddPluginList | vendor/github.com/RussellLuo/olaf/store/yaml/store.go:239-272 | the plugins of a list are named, implicitly ordered, scoped and stored in turn |
| OlafStore.RouteListScoped | vendor/github.com/RussellLuo/olaf/store/yaml/store.go:236 | every route of the document carries the name of a service it belongs to |
| OlafStore.ParsedRoutesHaveServices | vendor/github.com/RussellLuo/olaf/store/yaml/store.go:227-237 | after the pass every stored route refers to a service in the services map |
| OlafStore.ServiceNameStored | vendor/github.com/RussellLuo/olaf/store/yaml/store.go:227 | every service name of the document is a key of the services map |
| OlafStore.ParsedServices | vendor/github.com/RussellLuo/olaf/store/yaml/store.go:189-230 | a service is stored under a name exactly when some service of the document has it, and it is the last such service |
| OlafStore.FilterRoutes | vendor/github.com/RussellLuo/olaf/store/yaml/store.go:86-97 | the listed routes are stored routes of the given service, or any when it is empty |
| OlafStore.FilterPlugins | vendor/github.com/RussellLuo/olaf/store/yaml/store.go:119-135 | the listed plugins are stored plugins that pass the filter, serviceName taking precedence over routeName |
| OlafStore.FilterRoutesComplete | vendor/github.com/RussellLuo/olaf/store/yaml/store.go:86-97 | every stored route that passes the filter is listed |
| OlafStore.FilterPluginsComplete | vendor/github.com/RussellLuo/olaf/store/yaml/store.go:119-135 | every stored plugin that passes the filter is listed |
| OlafStore.Store.constructor | vendor/github.com/RussellLuo/olaf/store/yaml/store.go:19-30 | the store holds the given parsed data |
| OlafStore.Store.GetService | vendor/github.com/RussellLuo/olaf/store/yaml/store.go:57-72 | a route name resolves through that route's ServiceName; an unknown route or unknown service gives ErrServiceNotFound |
| OlafStore.Store.GetRoute | vendor/github.com/RussellLuo/olaf/store/yaml/store.go:99-105 | a route is found exactly when it exists and a non-empty service filter agrees; otherwise ErrRouteNotFound |
| OlafStore.Store.GetPlugin | vendor/github.com/RussellLuo/olaf/store/yaml/store.go:137-143 | a plugin is found exactly when it exists and the non-empty service and route filters agree; otherwise ErrPluginNotFound |
| OlafStore.Store.GetUpstream | vendor/github.com/RussellLuo/olaf/store/yaml/store.go:160-170 | naming an upstream is not implemented; otherwise the service's upstream, or ErrUpstreamNotFound |
| OlafStore.Store.ListServices | vendor/github.com/RussellLuo/olaf/store/yaml/store.go:50-55 | every service once, in the map's iteration order |
| OlafStore.Store.ListUpstreams | vendor/github.com/RussellLuo/olaf/store/yaml/store.go:153-158 | the upstream of every service, in the map's iteration order |
| OlafStore.Store.ListRoutes | vendor/github.com/RussellLuo/olaf/store/yaml/store.go:86-97 | the routes of the given service, or all of them, in iteration order |
| OlafStore.Store.ListPlugins | vendor/github.com/RussellLuo/olaf/store/yaml/store.go:119-135 | the plugins selected by the service filter, else by the route filter, in iteration order |
| OlafStore.Store.CreateService | vendor/github.com/RussellLuo/olaf/store/yaml/store.go:46-48 | returns ErrMethodNotImplemented and changes nothing |
| OlafStore.Store.UpdateService | vendor/github.com/RussellLuo/olaf/store/yaml/store.go:74-76 | returns ErrMethodNotImplemented and changes nothing |
| OlafStore.Store.DeleteService | vendor/github.com/RussellLuo/olaf/store/yaml/store.go:78-80 | returns ErrMethodNotImplemented and changes nothing |
| OlafStore.Store.CreateRoute | vendor/github.com/RussellLuo/olaf/store/yaml/store.go:82-84 | returns ErrMethodNotImplemented and changes nothing |
| OlafStore.Store.UpdateRoute | vendor/github.com/RussellLuo/olaf/store/yaml/store.go:107-109 | returns ErrMethodNotImplemented and changes nothing |
| OlafStore.Store.DeleteRoute | vendor/github.com/RussellLuo/olaf/store/yaml/store.go:111-113 | returns ErrMethodNotImplemented and changes nothing |
| OlafStore.Store.CreatePlugin | vendor/github.com/RussellLuo/olaf/store/yaml/store.go:115-117 | returns no plugin and ErrMethodNotImplemented, and changes nothing |
| OlafStore.Store.UpdatePlugin | vendor/github.com/RussellLuo/olaf/store/yaml/store.go:145-147 | returns ErrMethodNotImplemented and changes nothing |
| OlafStore.Store.DeletePlugin | vendor/github.com/RussellLuo/olaf/store/yaml/store.go:149-151 | returns ErrMethodNotImplemented and changes nothing |
| OlafStore.Store.UpdateUpstream | vendor/github.com/RussellLuo/olaf/store/yaml/store.go:172-174 | returns ErrMethodNotImplemented and changes nothing |
| OlafStore.ParsedRoutesResolve | vendor/github.com/RussellLuo/olaf/store/yaml/store.go:57-72 | over parsed data every stored route resolves to its own service through GetService |
| QuantityLimiter.ServeSpec | vendor/github.com/cubic3d/caddy-quantity-limiter/ql.go:46-64 | a request changes only the entry of the token it names: set stores the quantity and answers 202; get answers 404 exactly for a missing or spent token and otherwise spends one request and passes on without the get header; other requests change nothing and pass on; set is looked at first |
| QuantityLimiter.AsWrittenLosesQuota | vendor/github.com/cubic3d/caddy-quantity-limiter/ql.go:54-57 | as written, a refused get removes the entry named like the get parameter, so a token spelled "ql_get" loses its quota when an unknown token is asked for |
| QuantityLimiter.AsWrittenSameReplies | vendor/github.com/cubic3d/caddy-quantity-limiter/ql.go:46-64 | the code as written and the corrected one agree on every reply |
| QuantityLimiter.QuotaIsSpent | vendor/github.com/cubic3d/caddy-quantity-limiter/ql.go:53-61 | a token with quota k is served exactly k get requests, and the next one is refused |
| QuantityLimiter.Provisioned | vendor/github.com/cubic3d/caddy-quantity-limiter/ql.go:66-83 | the prefix defaults to "ql_", the parameters are prefix + "set" and prefix + "get", and a zero quantity becomes 1 |
| QuantityLimiter.ParamsDiffer | vendor/github.com/cubic3d/caddy-quantity-limiter/ql.go:75-76 | the set and get parameters are always different names |
| QuantityLimiter.ParseUint32Value | vendor/github.com/cubic3d/caddy-quantity-limiter/ql.go:99 | the 32-bit value ParseUint gives, including on an error |
| QuantityLimiter.ReadWellFormed | vendor/github.com/cubic3d/caddy-quantity-limiter/ql.go:85-109 | a well-formed block sets the prefix and the quantity it names |
| QuantityLimiter.Pow2Value32 | vendor/github.com/cubic3d/caddy-quantity-limiter/ql.go:99 | the 32-bit bound is 2^32 |
| QuantityLimiter.UnknownIsError | vendor/github.com/cubic3d/caddy-quantity-limiter/ql.go:103-104 | an unknown subdirective is an error naming it, and nothing before it is undone |
| QuantityLimiter.QuantityMustFit | vendor/github.com/cubic3d/caddy-quantity-limiter/ql.go:99-102 | a quantity that is not a 32-bit unsigned number is an error |
| QuantityLimiter.QuantityLimiter.constructor | vendor/github.com/cubic3d/caddy-quantity-limiter/ql.go:40-42 | a new handler is all zero |
| QuantityLimiter.QuantityLimiter.Provision | vendor/github.com/cubic3d/caddy-quantity-limiter/ql.go:66-83 | the counter is new and empty, and the settings are the provisioned ones |
| QuantityLimiter.QuantityLimiter.ServeHTTP | vendor/github.com/cubic3d/caddy-quantity-limiter/ql.go:46-64 | the counter and the reply are those the corrected specification gives |
| QuantityLimiter.QuantityLimiter.UnmarshalCaddyfile | vendor/github.com/cubic3d/caddy-quantity-limiter/ql.go:85-109 | the prefix, quantity and error are those the block reader gives |
| QuantityLimiter.Serve | vendor/github.com/cubic3d/caddy-quantity-limiter/ql.go:46-64 | the corrected handler on the counters, without a contract of its own; ServeSpec states what each kind of request changes and answers, and QuotaIsSpent that a quota of k serves exactly k get requests |
| QuantityLimiter.ServeAsWritten | vendor/github.com/cubic3d/caddy-quantity-limiter/ql.go:46-64 | the handler as written, without a contract of its own; AsWrittenSameReplies states that it answers as the corrected one does, and AsWrittenLosesQuota that it removes the wrong entry |
| ScgiClient.AsciiString | vendor/github.com/Elegant996/scgi-transport/client.go:87 | the bytes read as characters, one for one |
| ScgiClient.IndexAfterFree | vendor/github.com/Elegant996/scgi-transport/client.go:90 | the first colon of a netstring is the one after its length |
| ScgiClient.DecimalBytes | vendor/github.com/Elegant996/scgi-transport/client.go:87 | the length prefix holds decimal digits only |
| ScgiClient.NetstringRoundTrip | vendor/github.com/Elegant996/scgi-transport/client.go:86-98 | a netstring reads back as its content, whatever follows it |
| ScgiClient.ParseAt | vendor/github.com/Elegant996/scgi-transport/client.go:86-98 | once the colon and the length are found, the content and the rest follow |
| ScgiClient.LengthPrefix | vendor/github.com/Elegant996/scgi-transport/client.go:87 | the length prefix has no colon and reads back as the length |
| ScgiClient.Utf8NoNul | vendor/github.com/Elegant996/scgi-transport/client.go:106-132 | a string without NUL encodes without a NUL byte |
| ScgiClient.BlockSnoc2 | vendor/github.com/Elegant996/scgi-transport/client.go:120-134 | appending a key and a value appends their NUL-terminated bytes |
| ScgiClient.BlockCons | vendor/github.com/Elegant996/scgi-transport/client.go:106-132 | the block of fields is the first field, NUL, then the block of the rest |
| ScgiClient.Utf8All | vendor/github.com/Elegant996/scgi-transport/client.go:106-132 | the encoded fields, in order |
| ScgiClient.SplitBlock | vendor/github.com/Elegant996/scgi-transport/client.go:106-132 | fields without NUL read back from their block |
| ScgiClient.HeaderReadsBack | vendor/github.com/Elegant996/scgi-transport/client.go:101-136 | a responder reading the header block back gets CONTENT_LENGTH first whenever it was set, then each remaining pair, key before value |
| ScgiClient.PairFieldsShape | vendor/github.com/Elegant996/scgi-transport/client.go:120-134 | the pairs' fields alternate key and value, keys in iteration order |
| ScgiClient.PairFieldsSnoc | vendor/github.com/Elegant996/scgi-transport/client.go:120-134 | one more key appends its key and value |
| ScgiClient.OrderCoversKeys | vendor/github.com/Elegant996/scgi-transport/client.go:118-120 | the iteration order has one entry per key other than CONTENT_LENGTH |
| ScgiClient.DistinctCardinality | vendor/github.com/Elegant996/scgi-transport/client.go:120 | an order without repeats has as many keys as entries |
| ScgiClient.GetParams | vendor/github.com/Elegant996/scgi-transport/client.go:229-235 | REQUEST_METHOD becomes GET and CONTENT_LENGTH the given length; the other parameters are kept |
| ScgiClient.BodilessParams | vendor/github.com/Elegant996/scgi-transport/client.go:238-253 | REQUEST_METHOD becomes the verb and CONTENT_LENGTH "0"; the other parameters are kept |
| ScgiClient.PostMethod | vendor/github.com/Elegant996/scgi-transport/client.go:262-266 | the verb in upper case, or POST when that is empty or GET; never empty nor GET |
| ScgiClient.PostParams | vendor/github.com/Elegant996/scgi-transport/client.go:257-276 | method, length and content type (form-urlencoded by default) are set and the other parameters kept |
| ScgiClient.ParseStatusText | vendor/github.com/Elegant996/scgi-transport/client.go:183-190 | the integer before the first space and the text after it; an error when the integer does not parse |
| ScgiClient.StatusOfSound | vendor/github.com/Elegant996/scgi-transport/client.go:182-214 | a Status header decides the code and reason; without one, a failed first-line read is the error, a first line the status pattern matches gives its captured code and reason, and any other first line gives 200 |
| ScgiClient.SplitAtSpace | vendor/github.com/Elegant996/scgi-transport/client.go:183 | SplitN with 2 splits at the first space |
| ScgiClient.ResponseOfSound | vendor/github.com/Elegant996/scgi-transport/client.go:216-224 | a response keeps the header as read, takes its Transfer-Encoding values (none when absent) and the leniently parsed Content-Length, and has a chunked body exactly when the first of those encodings is "chunked"; a head or status error is the response's error |
| ScgiClient.LenientParseInt64 | vendor/github.com/Elegant996/scgi-transport/client.go:218 | the int64 value when the text parses, and a value in the int64 range otherwise |
| ScgiClient.Params.constructor | vendor/github.com/Elegant996/scgi-transport/client.go:259 | a new parameter map is empty |
| ScgiClient.HeaderBlock | vendor/github.com/Elegant996/scgi-transport/client.go:101-134 | the block holds CONTENT_LENGTH first when set, then each pair in iteration order, each NUL-terminated |
| ScgiClient.HeaderBlockStep | vendor/github.com/Elegant996/scgi-transport/client.go:120-134 | one more key of the order appends its pair to the block |
| ScgiClient.SCGIClient.constructor | vendor/github.com/Elegant996/scgi-transport/client.go:60-63 | nothing has been sent on a new connection |
| ScgiClient.SCGIClient.WriteNetstring | vendor/github.com/Elegant996/scgi-transport/client.go:86-98 | appends the length, a colon, the content and a comma |
| ScgiClient.SCGIClient.WritePairs | vendor/github.com/Elegant996/scgi-transport/client.go:101-136 | sends the header block as one netstring and removes CONTENT_LENGTH from the caller's map |
| ScgiClient.SCGIClient.Do | vendor/github.com/Elegant996/scgi-transport/client.go:140-152 | sends the header block and then the body, if any |
| ScgiClient.SCGIClient.Request | vendor/github.com/Elegant996/scgi-transport/client.go:165-226 | sends the request and returns the response that the head read back specifies |
| ScgiClient.SCGIClient.Get | vendor/github.com/Elegant996/scgi-transport/client.go:229-235 | sends the GET parameters and returns the response |
| ScgiClient.SCGIClient.Head | vendor/github.com/Elegant996/scgi-transport/client.go:238-244 | sends the HEAD parameters with no body and returns the response |
| ScgiClient.SCGIClient.Options | vendor/github.com/Elegant996/scgi-transport/client.go:247-253 | sends the OPTIONS parameters with no body and returns the response |
| ScgiClient.SCGIClient.Post | vendor/github.com/Elegant996/scgi-transport/client.go:257-276 | a missing map is replaced by a fresh one; sends the POST parameters and the body and returns the response |
| ScgiClient.StatusOf | vendor/github.com/Elegant996/scgi-transport/client.go:182-214 | the status of the response, without a contract of its own; StatusOfSound states its Status-header, line-error, status-line and 200 cases |
| SmallstepConfig.InitAuth | vendor/github.com/smallstep/certificates/authority/config/config.go:105-117 | every missing field gets its default (no provisioners, an empty template, a one-minute backdate) and every present field is kept |
| SmallstepConfig.InitAuthIdempotent | vendor/github.com/smallstep/certificates/authority/config/config.go:105-117 | initialising twice is initialising once |
| SmallstepConfig.CountK8sSA | vendor/github.com/smallstep/certificates/authority/config/config.go:129-134 | the count never exceeds the number of provisioners |
| SmallstepConfig.CountK8sSAZero | vendor/github.com/smallstep/certificates/authority/config/config.go:129-134 | the count is zero exactly when no provisioner is a service-account one |
| SmallstepConfig.CountK8sSAAboveOne | vendor/github.com/smallstep/certificates/authority/config/config.go:129-135 | the count exceeds one exactly when two positions hold service-account provisioners |
| SmallstepConfig.AuthCheck | vendor/github.com/smallstep/certificates/authority/config/config.go:128-143 | refused for two service-account provisioners (checked first) or a negative backdate, and accepted otherwise |
| SmallstepConfig.EmptyAuthValid | vendor/github.com/smallstep/certificates/authority/config/config.go:120-144 | a configuration with no provisioners and no backdate validates once initialised |
| SmallstepConfig.AuthConfig.constructor | vendor/github.com/smallstep/certificates/authority/config/config.go:175 | an AuthConfig literal has every optional field missing, and its nil options select the software CAS |
| SmallstepConfig.AuthConfig.Init | vendor/github.com/smallstep/certificates/authority/config/config.go:105-117 | the fields become the specified initialised configuration |
| SmallstepConfig.AuthConfig.CountK8sSAProvisioners | vendor/github.com/smallstep/certificates/authority/config/config.go:129-134 | the loop counts the service-account provisioners |
| SmallstepConfig.ValidateAuthConfig | vendor/github.com/smallstep/certificates/authority/config/config.go:120-144 | a missing configuration is an error; otherwise it is initialised and then checked |
| SmallstepConfig.FillTLS | vendor/github.com/smallstep/certificates/authority/config/config.go:229-237 | an empty cipher-suite list and unset versions are taken from the defaults, and everything else is kept |
| SmallstepConfig.FillTLSComplete | vendor/github.com/smallstep/certificates/authority/config/config.go:229-237 | filling from complete defaults leaves nothing unset, and filling again changes nothing |
| SmallstepConfig.ValidatedTLS | vendor/github.com/smallstep/certificates/authority/config/config.go:226-242 | missing options become the defaults; accepted ones are filled and OR in the default renegotiation flag; refused ones are left filled |
| SmallstepConfig.ValidatedTLSOrdered | vendor/github.com/smallstep/certificates/authority/config/config.go:238-240 | accepted TLS options have a minimum version no higher than the maximum, when the defaults do |
| SmallstepConfig.InitConfig | vendor/github.com/smallstep/certificates/authority/config/config.go:167-181 | DNS names default to localhost, 127.0.0.1 and ::1, TLS to the defaults, the common name to "Step Online CA", a missing authority section is created as the software CAS and initialised; the rest is kept |
| SmallstepConfig.InitConfigIdempotent | vendor/github.com/smallstep/certificates/authority/config/config.go:167-181 | initialising twice is initialising once |
| SmallstepConfig.ValidationAccepts | vendor/github.com/smallstep/certificates/authority/config/config.go:197-265 | an accepted configuration has an address with a port, some DNS names, an authority section, the key material the software CAS needs, passing outside validators, at most one service-account provisioner, a non-negative backdate and ordered TLS versions |
| SmallstepConfig.InitThenValidate | vendor/github.com/smallstep/certificates/authority/config/config.go:167-181 | an initialised configuration whose address has a port is refused for an empty root, crt or key when it uses the software CAS (as a missing authority section does), and otherwise validates as far as the outside validators and its authority section allow |
| SmallstepConfig.Config.constructor | vendor/github.com/smallstep/certificates/authority/config/config.go:54-72 | the configuration holds the given fields |
| SmallstepConfig.InitWithoutRootRefused | vendor/github.com/smallstep/certificates/authority/config/config.go:207-213 | a configuration with no authority section and no root is refused by Init then Validate with "root cannot be empty" |
| SmallstepConfig.Config.Init | vendor/github.com/smallstep/certificates/authority/config/config.go:167-181 | the fields become the initialised configuration; an existing authority section is updated in place, a missing one freshly created as the software CAS |
| SmallstepConfig.Config.Validate | vendor/github.com/smallstep/certificates/authority/config/config.go:197-265 | returns the specified validation outcome and leaves TLS and the authority section as far as the checks filled them |
| SmallstepConfig.Config.GetAudiences | vendor/github.com/smallstep/certificates/authority/config/config.go:270-309 | the audiences are the specified lists over the configured names as host names |
| SmallstepConfig.Config.Audience | vendor/github.com/smallstep/certificates/authority/config/config.go:312-321 | one URL per DNS name, "https://" + host name + path, then the bare path |
| SmallstepConfig.ToHostname | vendor/github.com/smallstep/certificates/authority/config/config.go:323-329 | an IPv6-only address is bracketed; any other name is kept |
| SmallstepConfig.ToHostnameBrackets | vendor/github.com/smallstep/certificates/authority/config/config.go:323-329 | a name not already bracketed comes out bracketed exactly when it is an IPv6-only address |
| SmallstepConfig.Urls | vendor/github.com/smallstep/certificates/authority/config/config.go:281-305 | one "https://" + host + path per path, in order |
| SmallstepConfig.Hosts | vendor/github.com/smallstep/certificates/authority/config/config.go:279-280 | each configured name becomes its host name, in order |
| SmallstepConfig.AudiencesForSnoc | vendor/github.com/smallstep/certificates/authority/config/config.go:279-306 | one more DNS name appends its URLs to every list |
| SmallstepConfig.AllUrlsIndex | vendor/github.com/smallstep/certificates/authority/config/config.go:279-306 | host i's URL for path j sits at position i * paths + j |
| SmallstepConfig.AllUrlsLength | vendor/github.com/smallstep/certificates/authority/config/config.go:279-306 | there are hosts times paths URLs |
| SmallstepConfig.AudienceCounts | vendor/github.com/smallstep/certificates/authority/config/config.go:271-306 | per DNS name four sign and SSH-sign audiences and two of each other kind; sign and revoke keep the legacy audience first |
| SmallstepConfig.SignAudienceOfHost | vendor/github.com/smallstep/certificates/authority/config/config.go:281-285 | each host's versioned and plain X.509 sign URLs and then its SSH ones appear in the sign list at its own position |
| SmallstepConfig.AudienceMatchesRenew | vendor/github.com/smallstep/certificates/authority/config/config.go:286-288 | the renew list holds each host's versioned and plain renew URLs, hosts in order |
| SmallstepOptions.GetX509Options | vendor/github.com/smallstep/certificates/authority/provisioner/options.go:32-37 | the X.509 options when the options exist and hold them, and nothing otherwise |
| SmallstepOptions.GetSSHOptions | vendor/github.com/smallstep/certificates/authority/provisioner/options.go:40-45 | the SSH options when the options exist and hold them, and nothing otherwise |
| SmallstepOptions.HasTemplateDecidesDefault | vendor/github.com/smallstep/certificates/authority/provisioner/options.go:62-64 | the default template matters exactly when the options name neither an inline template nor a template file: then it is the one used, otherwise two different defaults give the same choice |
| SmallstepOptions.TemplateSourceSound | vendor/github.com/smallstep/certificates/authority/provisioner/options.go:93-130 | without a custom template the default is used; a template file only when there is no inline template; an inline template, trimmed, as JSON when it starts with '{' and as base64 otherwise |
| SmallstepOptions.UserObject | vendor/github.com/smallstep/certificates/authority/provisioner/options.go:102-109 | no user object for empty request data; otherwise a decoded JSON object: the parsed one when it parses, an empty one when it does not |
| SmallstepOptions.ProvisionerData | vendor/github.com/smallstep/certificates/authority/provisioner/options.go:84-91 | empty data and "null" leave the data unchanged; a JSON object gives exactly the old keys and its members, each member's decoded JSON value overwriting, the other entries kept; anything else is the "error unmarshaling template data" error |
| SmallstepOptions.CertificateOptions.constructor | vendor/github.com/smallstep/certificates/authority/provisioner/options.go:93 | the closure captures the options, the data and the default template |
| SmallstepOptions.DecodedInsecureReplaced | vendor/go.step.sm/crypto/x509util/templates.go:54-60 | an Insecure entry of the provisioner's data is a decoded object, not template data, so storing the user object afterwards leaves Insecure holding the user object alone |
| SmallstepOptions.CertificateOptions.Options | vendor/github.com/smallstep/certificates/authority/provisioner/options.go:93-130 | returns the one template option the source selects; with a custom template and request data the user object is stored first, and otherwise the data is untouched |
| SmallstepOptions.CustomTemplateOptions | vendor/github.com/smallstep/certificates/authority/provisioner/options.go:78-131 | succeeds exactly when the provisioner data decodes; the closure holds the X.509 options, the default template and the decoded data, in the given map or a fresh one |
| SmallstepOptions.TemplateOptions | vendor/github.com/smallstep/certificates/authority/provisioner/options.go:70-72 | CustomTemplateOptions with the default leaf template |
| SmallstepRevoke.Validate | vendor/github.com/smallstep/certificates/api/revoke.go:30-42 | valid exactly for a non-empty serial, a reason code between Unspecified and AACompromise, and a passive request; checked in that order, non-passive being not implemented |
| SmallstepRevoke.AuthorizedRevocation | vendor/github.com/smallstep/certificates/api/revoke.go:56-96 | a revocation is attempted only for a valid request; the options carry the body's serial, reason and passivity, and either an accepted token or, over mutual TLS, the first peer certificate, whose serial is the body's |
| SmallstepRevoke.MTLSRefusals | vendor/github.com/smallstep/certificates/api/revoke.go:79-90 | without a token, a connection without a client certificate or one whose first certificate has another serial is a bad request |
| SmallstepRevoke.RevokeSucceeds | vendor/github.com/smallstep/certificates/api/revoke.go:49-105 | the handler succeeds exactly when the body decodes and validates, the request is authorised and the authority revokes; a validation error is returned as is |
| SmallstepRevoke.Revoke | vendor/github.com/smallstep/certificates/api/revoke.go:49-105 | the revocation handler, without a contract of its own; RevokeSucceeds states that it succeeds exactly when the body decodes and validates, the request is authorised and the authority revokes |
| SmallstepSignOptions.EmailOnlyIdentity | vendor/github.com/smallstep/certificates/authority/provisioner/sign_options.go:82-101 | accepts exactly a request whose only SAN is the single configured, non-empty e-mail address; DNS names are reported first and no address as its own error |
| SmallstepSignOptions.Quo | vendor/github.com/smallstep/certificates/authority/provisioner/sign_options.go:139 | Go's truncating integer division |
| SmallstepSignOptions.MinimumLengthKeyValid | vendor/github.com/smallstep/certificates/authority/provisioner/sign_options.go:136-148 | an RSA key of at least length/8 bytes, or an EC or Ed25519 key, passes; any other key type is an error naming it |
| SmallstepSignOptions.DefaultPublicKeyValid | vendor/github.com/smallstep/certificates/authority/provisioner/sign_options.go:107-118 | an RSA key of at least 256 bytes, or an EC or Ed25519 key, passes |
| SmallstepSignOptions.DefaultIsMinimum2048 | vendor/github.com/smallstep/certificates/authority/provisioner/sign_options.go:107-148 | the default key validator agrees with the minimum-length one at 2048 bits, errors included |
| SmallstepSignOptions.CommonNameValid | vendor/github.com/smallstep/certificates/authority/provisioner/sign_options.go:155-163 | an empty common name or the configured one passes, anything else is an error naming it |
| SmallstepSignOptions.CommonNameSliceValid | vendor/github.com/smallstep/certificates/authority/provisioner/sign_options.go:169-179 | an empty common name or any configured one passes |
| SmallstepSignOptions.FirstMatch | vendor/github.com/smallstep/certificates/authority/provisioner/sign_options.go:173-177 | the loop finds the common name exactly when it is configured |
| SmallstepSignOptions.CommonNameOne | vendor/github.com/smallstep/certificates/authority/provisioner/sign_options.go:155-179 | the single-valued validator is the slice validator over one name |
| SmallstepSignOptions.MarkAll | vendor/github.com/smallstep/certificates/authority/provisioner/sign_options.go:190-197 | the want/got map marks exactly the listed values |
| SmallstepSignOptions.SansValid | vendor/github.com/smallstep/certificates/authority/provisioner/sign_options.go:186-271 | a SAN kind passes exactly when the request has none of it or the same set of values as configured |
| SmallstepSignOptions.DefaultSANsValid | vendor/github.com/smallstep/certificates/authority/provisioner/sign_options.go:279-291 | every SAN kind must match; DNS names, e-mail addresses, IP addresses and URIs are checked in that order and the first mismatch, with the requested and configured values, is the error |
| SmallstepSignOptions.DefaultSANsAcceptConfigured | vendor/github.com/smallstep/certificates/authority/provisioner/sign_options.go:277-291 | a request carrying the configured SANs in any order passes |
| SmallstepSignOptions.SameValuesOfPermutation | vendor/github.com/smallstep/certificates/authority/provisioner/sign_options.go:198 | values that are a permutation of the configured ones compare equal as sets |
| SmallstepSignOptions.DefaultWindowStart | vendor/github.com/smallstep/certificates/authority/provisioner/sign_options.go:298-314 | a requested NotBefore is kept; an unset one becomes now minus the backdate |
| SmallstepSignOptions.DefaultWindowLength | vendor/github.com/smallstep/certificates/authority/provisioner/sign_options.go:305-315 | with no NotAfter the certificate lasts the profile duration, or 24h when that is 0, from the start before backdating |
| SmallstepSignOptions.DefaultWindowEnd | vendor/github.com/smallstep/certificates/authority/provisioner/sign_options.go:305 | a requested NotAfter is kept, a relative one counted from the unbackdated start |
| SmallstepSignOptions.LimitWindowSound | vendor/github.com/smallstep/certificates/authority/provisioner/sign_options.go:328-359 | the limit refuses exactly a start before the credential's window or a requested end after its expiry; an accepted certificate never outlives the credential |
| SmallstepSignOptions.LimitWindowDefaultEnd | vendor/github.com/smallstep/certificates/authority/provisioner/sign_options.go:347-354 | with no NotAfter the end is the default duration from the start, capped at the credential's expiry |
| SmallstepSignOptions.LimitWindowStart | vendor/github.com/smallstep/certificates/authority/provisioner/sign_options.go:329-356 | the limit gives the same start as the default profile |
| SmallstepSignOptions.ValidityValid | vendor/github.com/smallstep/certificates/authority/provisioner/sign_options.go:374-402 | on whole seconds, passes exactly when the end is not in the past, not before the start, and the duration lies between min and max plus backdate (a wrapping Duration sum); a past end is reported first |
| SmallstepSignOptions.DefaultWindowIsValid | vendor/github.com/smallstep/certificates/authority/provisioner/sign_options.go:297-317 | a window the default profile gives with a whole-second duration between min and max passes the validity validator |
| SmallstepSignOptions.Certificate.constructor | vendor/github.com/smallstep/certificates/authority/provisioner/sign_options.go:297 | a certificate with the given names and extensions and an unset validity window |
| SmallstepSignOptions.DefaultDurationModify | vendor/github.com/smallstep/certificates/authority/provisioner/sign_options.go:297-317 | sets the validity window the default profile specifies and never fails |
| SmallstepSignOptions.LimitDurationModify | vendor/github.com/smallstep/certificates/authority/provisioner/sign_options.go:328-359 | sets the limited window, or fails and leaves the certificate alone |
| SmallstepSignOptions.ForcedCommonNameSound | vendor/github.com/smallstep/certificates/authority/provisioner/sign_options.go:424-439 | forcing fails only for an empty common name with no DNS name; the name left is the old one or the first DNS name, and forcing twice is forcing once |
| SmallstepSignOptions.ForceCNModify | vendor/github.com/smallstep/certificates/authority/provisioner/sign_options.go:424-439 | the certificate's common name becomes the forced one, or the error is returned and nothing changes |
| SmallstepSignOptions.CreateProvisionerExtension | vendor/github.com/smallstep/certificates/authority/provisioner/sign_options.go:473-488 | the extension carries the step provisioner OID 1.3.6.1.4.1.37476.9000.64.1 and is not critical; an encoding error is returned |
| SmallstepSignOptions.ProvisionerExtensionModify | vendor/github.com/smallstep/certificates/authority/provisioner/sign_options.go:457-471 | the provisioner extension is put in front of the certificate's extensions, or the error is returned and nothing changes |
| SmallstepSignOptions.FirstExtension | vendor/github.com/smallstep/certificates/authority/provisioner/sign_options.go:462-468 | the extension signing keeps is the first one with the identifier, and there is none only when no extension has it |
| SmallstepSignOptions.PrependedExtensionWins | vendor/github.com/smallstep/certificates/authority/provisioner/sign_options.go:462-469 | prepending makes the provisioner's extension the one kept, while appending would keep a smuggled one |
| SmallstepSignOptions.FirstExtensionAppend | vendor/github.com/smallstep/certificates/authority/provisioner/sign_options.go:462-468 | extensions appended after a match do not change which is found first |
| SmallstepSSH.MergedDataSound | vendor/github.com/smallstep/certificates/authority/ssh.go:75-86 | empty request data leaves the template data as it is; otherwise the merged data holds the template data plus "User", every template value kept (a configured "User" included) and "User" otherwise the request data |
| SmallstepSSH.ConfigTemplates | vendor/github.com/smallstep/certificates/authority/ssh.go:53-73 | an error exactly when there is no signing key, no templates, or a type other than user or host, with no signing key reported first; no SSH templates give none |
| SmallstepSSH.GetSSHConfig | vendor/github.com/smallstep/certificates/authority/ssh.go:52-107 | the render loop returns the specified outputs or the first error |
| SmallstepSSH.SSHConfigRendersEach | vendor/github.com/smallstep/certificates/authority/ssh.go:88-105 | on success each template renders, with the merged data, into the output at its own position |
| SmallstepSSH.GetSSHBastionSound | vendor/github.com/smallstep/certificates/authority/ssh.go:116-132 | without an injected lookup: no SSH section is not-found; a configured bastion is returned for every host but itself, compared ignoring case; otherwise none |
| GoStrings.EqualFoldOrbits | vendor/github.com/smallstep/certificates/authority/ssh.go:126 | the hostname comparison folds the Kelvin sign with k and the long s with S, but not the dotted capital I with i, as strings.EqualFold does |
| SmallstepSSH.GetSSHBastionInjected | vendor/github.com/smallstep/certificates/authority/ssh.go:112-115 | an injected lookup decides the answer and whether it fails |
| SmallstepSSH.ClassifySound | vendor/github.com/smallstep/certificates/authority/ssh.go:151-174 | the option loop succeeds exactly when every option is of a known kind and every options validator passes, and then keeps the modifiers and validators in order |
| SmallstepSSH.ClassifyFirstFailure | vendor/github.com/smallstep/certificates/authority/ssh.go:151-174 | a failing loop fails on the first option it does not accept |
| SmallstepSSH.ClassifySignOptions | vendor/github.com/smallstep/certificates/authority/ssh.go:151-174 | the loop computes the specified classification |
| SmallstepSSH.ClassifyPrefixErr | vendor/github.com/smallstep/certificates/authority/ssh.go:151-174 | once a prefix of the options fails, the whole list fails the same way |
| SmallstepSSH.FirstRejection | vendor/github.com/smallstep/certificates/authority/ssh.go:236-240 | no rejection exactly when every validator accepts the certificate |
| SmallstepSSH.RunModifiers | vendor/github.com/smallstep/certificates/authority/ssh.go:206-210 | the modifier loop computes the specified modifications or the first error |
| SmallstepSSH.ModifiersPrefixErr | vendor/github.com/smallstep/certificates/authority/ssh.go:206-210 | a modifier error in a prefix ends the whole loop with it |
| SmallstepSSH.RunValidators | vendor/github.com/smallstep/certificates/authority/ssh.go:236-240 | the validator loop returns the first rejection, if any |
| SmallstepSSH.RejectionPrefix | vendor/github.com/smallstep/certificates/authority/ssh.go:236-240 | a rejection in a prefix is the answer for the whole list |
| SmallstepSSH.SignerFor | vendor/github.com/smallstep/certificates/authority/ssh.go:213-227 | user and host certificates are signed by their own CA key, and a missing key is an error; any other type is an error with the status the caller gives |
| SmallstepSSH.SignSSH | vendor/github.com/smallstep/certificates/authority/ssh.go:136-247 | SignSSH computes the specified result |
| SmallstepSSH.RefusedBeforeBuilding | vendor/github.com/smallstep/certificates/authority/ssh.go:143-174 | an option SignSSH refuses ends the call before any certificate is built, whatever the template, modifiers, signer and validators |
| SmallstepSSH.ClassifyOracles | vendor/github.com/smallstep/certificates/authority/ssh.go:151-174 | classification depends only on the options oracles |
| SmallstepSSH.MissingSignerNotImplemented | vendor/github.com/smallstep/certificates/authority/ssh.go:213-224 | a prepared certificate whose type has no CA key is refused as not implemented |
| SmallstepSSH.SignedCertificatePassedValidators | vendor/github.com/smallstep/certificates/authority/ssh.go:228-246 | a certificate SignSSH returns was signed by the CA key for its type and passed every validator, with the CA's backdate in the options |
| SmallstepSSH.WrapInt64 | vendor/github.com/smallstep/certificates/authority/ssh.go:260 | Duration arithmetic stays in the int64 range and leaves values already in it alone |
| SmallstepSSH.ResignWindowKeepsLength | vendor/github.com/smallstep/certificates/authority/ssh.go:259-276 | when nothing wraps, the new window starts at now minus backdate, in whole seconds, and has exactly the old window's length |
| SmallstepSSH.ResignTemplate | vendor/github.com/smallstep/certificates/authority/ssh.go:267-276 | the new certificate keeps the old one's type, key id, principals, permissions and reserved field, under the new window and key |
| SmallstepSSH.RenewSSH | vendor/github.com/smallstep/certificates/authority/ssh.go:250-306 | a certificate without a validity period is refused before anything else |
| SmallstepSSH.RekeyValidators | vendor/github.com/smallstep/certificates/authority/ssh.go:312-320 | accepted exactly when every option is a certificate validator, which are kept in order |
| SmallstepSSH.RekeySSH | vendor/github.com/smallstep/certificates/authority/ssh.go:309-385 | RekeySSH computes the specified result |
| SmallstepSSH.RekeyPrefixErr | vendor/github.com/smallstep/certificates/authority/ssh.go:312-320 | an option refused in a prefix is refused for the whole list |
| SmallstepSSH.RekeyOrder | vendor/github.com/smallstep/certificates/authority/ssh.go:312-324 | an option that is not a validator is refused first; then a certificate without a validity period |
| SmallstepSSH.RekeyErrorKind | vendor/github.com/smallstep/certificates/authority/ssh.go:317-318 | the refusal names an invalid option type |
| SmallstepSSH.RekeyedCertificate | vendor/github.com/smallstep/certificates/authority/ssh.go:338-378 | a rekeyed certificate carries the new key, keeps the old identity, and passed every validator |
| SmallstepSSH.ValidatorIdsAll | vendor/github.com/smallstep/certificates/authority/ssh.go:312-316 | with only validators, every one is kept at its own position |
| SmallstepSSH.IsValidForAddUser | vendor/github.com/smallstep/certificates/authority/ssh.go:399-419 | accepted exactly for a user certificate with one principal, or two when the second holds '@' after its first character; other certificates are not user certificates |
| SmallstepSSH.AddUserPrincipal | vendor/github.com/smallstep/certificates/authority/ssh.go:520-525 | the configured principal, or "provisioner" when none; never empty |
| SmallstepSSH.DefaultAddUserCommand | vendor/github.com/smallstep/certificates/authority/ssh.go:527-535 | with no configured command every "<principal>" of the default is replaced |
| SmallstepSSH.AddUserCertificateShape | vendor/github.com/smallstep/certificates/authority/ssh.go:440-459 | a user certificate for the add-user principal alone, key id "principal-adduser", the subject's validity window, forced to run the add-user command, signed with the user CA key |
| SmallstepSSH.AddUserRefusals | vendor/github.com/smallstep/certificates/authority/ssh.go:423-428 | without the user CA key, as in a CA with no SSH section, the request is refused as not implemented; with it, an unfit subject is forbidden |
| SmallstepSSH.GetSSHBastion | vendor/github.com/smallstep/certificates/authority/ssh.go:111-132 | the bastion and error of GetSSHBastion, without a contract of its own; GetSSHBastionSound and GetSSHBastionInjected state its answers with and without an injected lookup |
| SmallstepSSH.SignSSHAddUser | vendor/github.com/smallstep/certificates/authority/ssh.go:422-477 | the add-user certificate or error, without a contract of its own; AddUserRefusals states its refusals and AddUserCertificateShape the certificate it signs |
| SmallstepSSH.RekeySSHResult | vendor/github.com/smallstep/certificates/authority/ssh.go:309-385 | the answer of RekeySSH, without a contract of its own; the method RekeySSH returns it, RekeyOrder states the order of its refusals and RekeyedCertificate the certificate it signs |
| StepTemplates.WithEntry | vendor/go.step.sm/crypto/x509util/templates.go:49-51 | the key holds the value afterwards and every other entry is unchanged |
| StepTemplates.WithInsecure | vendor/go.step.sm/crypto/x509util/templates.go:54-60 | Insecure is a map afterwards: the key is set inside an existing Insecure map, and anything else there, or nothing, is replaced by a map holding just the key; other entries are unchanged |
| StepTemplates.WithCommonName | vendor/go.step.sm/crypto/x509util/templates.go:68-72 | the subject (or the zero one) gets the common name and keeps its other attributes; other entries are unchanged |
| StepTemplates.CreatedData | vendor/go.step.sm/crypto/x509util/templates.go:39-46 | exactly a subject with the common name and the SANs |
| StepTemplates.SetInsecureAccumulates | vendor/go.step.sm/crypto/x509util/templates.go:54-60 | two insecure entries under different keys are both kept |
| StepTemplates.SetCommonNameLastWins | vendor/go.step.sm/crypto/x509util/templates.go:68-72 | setting a common name twice keeps only the second |
| StepTemplates.SetCommonNameOfCreated | vendor/go.step.sm/crypto/x509util/templates.go:39-72 | setting the common name of created data keeps the SANs and changes nothing else |
| StepTemplates.TemplateData.constructor | vendor/go.step.sm/crypto/x509util/templates.go:34-36 | new template data is empty |
| StepTemplates.TemplateData.Create | vendor/go.step.sm/crypto/x509util/templates.go:39-46 | the map holds the created subject and SANs |
| StepTemplates.TemplateData.Set | vendor/go.step.sm/crypto/x509util/templates.go:49-51 | the map is updated at the key |
| StepTemplates.TemplateData.SetInsecure | vendor/go.step.sm/crypto/x509util/templates.go:54-60 | the map gets the insecure entry |
| StepTemplates.TemplateData.SetSubject | vendor/go.step.sm/crypto/x509util/templates.go:63-65 | the subject entry is replaced |
| StepTemplates.TemplateData.SetCommonName | vendor/go.step.sm/crypto/x509util/templates.go:68-72 | the subject's common name is replaced |
| StepTemplates.TemplateData.SetSANs | vendor/go.step.sm/crypto/x509util/templates.go:75-77 | the SANs entry is replaced |
| StepTemplates.TemplateData.SetToken | vendor/go.step.sm/crypto/x509util/templates.go:80-82 | the token entry is replaced |
| StepTemplates.TemplateData.SetUserData | vendor/go.step.sm/crypto/x509util/templates.go:86-88 | the user object goes under Insecure.User |
| StepTemplates.TemplateData.SetCertificateRequest | vendor/go.step.sm/crypto/x509util/templates.go:92-94 | the request's template form goes under Insecure.CR |
| SupervisorDefinition.ValidateOutputTarget | vendor/github.com/baldinof/caddy-supervisor/definition.go:154-167 | null, stdout, stderr and a file target with a file are usable; a file target without one and any other type are errors |
| SupervisorDefinition.TargetString | vendor/github.com/baldinof/caddy-supervisor/definition.go:169-178 | a stream target is described by its type, a file target as file(path), anything else as "unknown" |
| SupervisorDefinition.TargetStringInjective | vendor/github.com/baldinof/caddy-supervisor/definition.go:154-178 | a usable target is never "unknown", and its description tells its type and, for a file, its file |
| SupervisorDefinition.EnvArgs | vendor/github.com/baldinof/caddy-supervisor/definition.go:142-152 | one argument per key of the iteration order |
| SupervisorDefinition.EnvArgsListsEntries | vendor/github.com/baldinof/caddy-supervisor/definition.go:142-152 | one "key=value" for every entry of the map, and nothing else |
| SupervisorDefinition.EnvToCmdArg | vendor/github.com/baldinof/caddy-supervisor/definition.go:142-152 | the loop fills the array by index in iteration order |
| SupervisorDefinition.PrepareDefaults | vendor/github.com/baldinof/caddy-supervisor/definition.go:66-118 | a definition setting only its command restarts always, waits 10 seconds, writes to Caddy's stdout and stderr, and runs its command's first word with the rest as arguments |
| SupervisorDefinition.PrepareFails | vendor/github.com/baldinof/caddy-supervisor/definition.go:75-118 | preparing fails exactly for an unknown user, an unusable output target or an unparsable grace period, with the first check's error; an unknown user gives "user: unknown user " and the name |
| SupervisorDefinition.Replicas | vendor/github.com/baldinof/caddy-supervisor/definition.go:120-137 | at most k supervisors, and exactly k when no template fails |
| SupervisorDefinition.ReplicasInOrder | vendor/github.com/baldinof/caddy-supervisor/definition.go:120-137 | without template errors supervisor i is made from the options of replica i |
| SupervisorDefinition.ReplicasStopAtError | vendor/github.com/baldinof/caddy-supervisor/definition.go:123-127 | a template error at replica j leaves exactly the j supervisors before it, with that error |
| SupervisorDefinition.DefaultIsOneReplica | vendor/github.com/baldinof/caddy-supervisor/definition.go:81-85 | a definition without a replica count makes one supervisor |
| SupervisorDefinition.NegativeReplicasMakeNone | vendor/github.com/baldinof/caddy-supervisor/definition.go:81-120 | a negative replica count makes no supervisor and no error |
| SupervisorDefinition.ReplicasErrorSticks | vendor/github.com/baldinof/caddy-supervisor/definition.go:125-127 | once a template fails, later replicas are not made |
| SupervisorDefinition.ToSupervisors | vendor/github.com/baldinof/caddy-supervisor/definition.go:63-140 | ToSupervisors gives the specified supervisors and error |
| SupervisorDefinition.Prepare | vendor/github.com/baldinof/caddy-supervisor/definition.go:66-118 | the options of a definition, without a contract of its own; PrepareFails states its errors in order and PrepareDefaults the defaults |
| TlsFormat.FilterVersion | vendor/github.com/ueffel/caddy-tls-format/format.go:30-46 | the field becomes a string field; a TLS 1.0 to 1.3 code becomes the prefix and the version, any other code its lower-case hexadecimal form without the prefix; the other parts of the field are kept |
| TlsFormat.FormatInt16HasNoDot | vendor/github.com/ueffel/caddy-tls-format/format.go:43 | a hexadecimal rendering holds no '.' |
| TlsFormat.FilterVersionInjective | vendor/github.com/ueffel/caddy-tls-format/format.go:30-46 | for a fixed prefix the filtered text determines the version code |
| TlsFormat.FilterCipher | vendor/github.com/ueffel/caddy-tls-format/format.go:72-76 | the field becomes a string field holding the name of the code truncated to 16 bits; the rest is kept |
| TlsFormat.FilterCipherTruncates | vendor/github.com/ueffel/caddy-tls-format/format.go:74 | codes that differ by a multiple of 2^16 get the same name |
| TlsFormat.PrefixAfterFromTokens | vendor/github.com/ueffel/caddy-tls-format/format.go:49-56 | the prefix left is the old one or one of the tokens' texts |
| TlsFormat.NoArgumentKeepsPrefix | vendor/github.com/ueffel/caddy-tls-format/format.go:50-54 | a line holding only the directive name leaves the prefix as it was |
| TlsFormat.ArgumentSetsPrefix | vendor/github.com/ueffel/caddy-tls-format/format.go:51-53 | a directive with one argument sets the prefix to it |
| TlsFormat.OwnLinesKeepPrefix | vendor/github.com/ueffel/caddy-tls-format/format.go:50-54 | with every token on a line of its own the prefix is unchanged |
| TlsFormat.TLSVersionFilter.constructor | vendor/github.com/ueffel/caddy-tls-format/format.go:24 | the filter holds the given prefix |
| TlsFormat.TLSVersionFilter.UnmarshalCaddyfile | vendor/github.com/ueffel/caddy-tls-format/format.go:49-56 | never fails, and leaves the prefix the token reader specifies |
| VersionedLicense.ExecuteApache | vendor/github.com/greenpau/versioned/license.go:40-52 | executing tmplApache gives the copyright line with the year and holder, a blank line and the licence body |
| VersionedLicense.ClueIsPlain | vendor/github.com/greenpau/versioned/license.go:35-37 | the Apache clue is one 46-byte line ending in a visible character |
| VersionedLicense.Ext | vendor/github.com/greenpau/versioned/license.go:243 | filepath.Ext: the extension is no longer than the path |
| VersionedLicense.ExtIsLastDot | vendor/github.com/greenpau/versioned/license.go:243 | the extension is the tail from the last '.' of the final path element, holding no '/' or further '.'; it is "" exactly when that element has no '.' |
| VersionedLicense.WrapFor | vendor/github.com/greenpau/versioned/license.go:245-256 | .go and .js get their comment styles; an empty extension and any other extension are errors |
| VersionedLicense.WrapForWellFormed | vendor/github.com/greenpau/versioned/license.go:249-253 | both comment styles have a non-empty line prefix and one-line opening and closing parts |
| VersionedLicense.TrailingSpaceWidth | vendor/github.com/greenpau/versioned/license.go:280 | the byte width of the white-space rune the text ends with, or 0 |
| VersionedLicense.TrimTrailingSpace | vendor/github.com/greenpau/versioned/license.go:280 | strings.TrimRightFunc with unicode.IsSpace: a prefix that no longer ends in white space |
| VersionedLicense.TrimKeepsPrefix | vendor/github.com/greenpau/versioned/license.go:280 | trimming never reaches into a prefix ending in a visible ASCII character |
| VersionedLicense.IndexByteFirst | vendor/github.com/greenpau/versioned/license.go:278-279 | the first LF is found, and -1 only when there is none |
| VersionedLicense.ScanLines | vendor/github.com/greenpau/versioned/license.go:278-279 | a non-empty buffer scans into at least one line |
| VersionedLicense.ScanLinesFree | vendor/github.com/greenpau/versioned/license.go:278-279 | no scanned line holds an LF |
| VersionedLicense.ScanSplit | vendor/github.com/greenpau/versioned/license.go:278-279 | scanning splits at every LF |
| VersionedLicense.ScanOne | vendor/github.com/greenpau/versioned/license.go:278-279 | a plain line followed by LF scans as itself |
| VersionedLicense.ScanFirst | vendor/github.com/greenpau/versioned/license.go:278-279 | the first scanned line begins with the text before the first LF when that does not end in CR |
| VersionedLicense.WrapLines | vendor/github.com/greenpau/versioned/license.go:279-282 | one wrapped line per template line |
| VersionedLicense.WrapLinesAt | vendor/github.com/greenpau/versioned/license.go:280 | each template line is prefixed with the comment prefix and right-trimmed |
| VersionedLicense.TerminatedAppend | vendor/github.com/greenpau/versioned/license.go:281 | terminating two runs of lines in turn is terminating them together |
| VersionedLicense.WriteLines | vendor/github.com/greenpau/versioned/license.go:279-282 | the scan loop writes every template line prefixed, right-trimmed and terminated |
| VersionedLicense.HeaderBytesParts | vendor/github.com/greenpau/versioned/license.go:274-287 | the header is the opening line if any, the wrapped lines, the closing line if any, then one blank line |
| VersionedLicense.RenderHeader | vendor/github.com/greenpau/versioned/license.go:274-287 | the rendering steps of build produce the specified header bytes |
| VersionedLicense.HeaderLinesPlain | vendor/github.com/greenpau/versioned/license.go:274-286 | every header line is free of LF and trailing CR, and all but the final blank one are non-empty |
| VersionedLicense.HeaderBody | vendor/github.com/greenpau/versioned/license.go:274-286 | before the final blank line no header line is empty, and the closing line comes last when there is one |
| VersionedLicense.HeaderTail | vendor/github.com/greenpau/versioned/license.go:283-286 | the rendered header ends with the closing line (or its last line) and a blank line |
| VersionedLicense.HeaderNoDouble | vendor/github.com/greenpau/versioned/license.go:274-286 | before its final blank line the header never holds two LFs in a row |
| VersionedLicense.FirstCloseAt | vendor/github.com/greenpau/versioned/license.go:155 | the closing line plus separator is first found where it occurs with no earlier LF pair |
| VersionedLicense.CutAfter | vendor/github.com/greenpau/versioned/license.go:153-163 | strip cuts right after a header ending in the closing line and a blank line that holds no earlier LF pair |
| VersionedLicense.HeaderCut | vendor/github.com/greenpau/versioned/license.go:153-163 | strip finds its cut right after the header that add put in front of the file, whatever follows |
| VersionedLicense.WrappedClue | vendor/github.com/greenpau/versioned/license.go:280 | a template line beginning with the clue keeps it once prefixed and trimmed, so the header holds it |
| VersionedLicense.HeaderHasClue | vendor/github.com/greenpau/versioned/license.go:35-52 | the rendered Apache header holds the clue inspect looks for |
| VersionedLicense.Window | vendor/github.com/greenpau/versioned/license.go:122-123 | inspect reads exactly len(raw)+10 bytes |
| VersionedLicense.WindowBytes | vendor/github.com/greenpau/versioned/license.go:122-123 | the window is the file's first bytes, zero-filled past its end |
| VersionedLicense.WindowHasPrefix | vendor/github.com/greenpau/versioned/license.go:122-123 | the window holds any prefix of the file that fits in it |
| VersionedLicense.Inspected | vendor/github.com/greenpau/versioned/license.go:115-138 | a file that yields no bytes fails to read; flags already set stay set |
| VersionedLicense.InspectedFlags | vendor/github.com/greenpau/versioned/license.go:126-136 | found is set when the window holds the clue or "Copyright "; match is set only when it holds the clue and the whole header |
| VersionedLicense.StripCut | vendor/github.com/greenpau/versioned/license.go:153-160 | the cut never lies past the file's end |
| VersionedLicense.StripCutFirst | vendor/github.com/greenpau/versioned/license.go:153-163 | the cut follows the first separator, in the order \n\n, \r\r, \r\n\r\n, whose closing-line occurrence is at offset > 0; there is none only when no separator has one |
| VersionedLicense.Rewritten | vendor/github.com/greenpau/versioned/license.go:140-199 | only "add" and "strip" are accepted; add writes the header followed by the old contents |
| VersionedLicense.RewrittenStrip | vendor/github.com/greenpau/versioned/license.go:153-164 | strip writes nothing when no cut is found, and otherwise what follows the cut |
| VersionedLicense.Built | vendor/github.com/greenpau/versioned/license.go:260-289 | build succeeds exactly when getWrapChars does, and then renders the header in that comment style |
| VersionedLicense.AddOutcomeAfterBuild | vendor/github.com/greenpau/versioned/license.go:76-95 | once build has succeeded AddLicense goes on with its comment style and header; a build error is returned as is |
| VersionedLicense.StripOutcomeAfterBuild | vendor/github.com/greenpau/versioned/license.go:97-113 | once build has succeeded StripLicense goes on with its comment style and header; a build error is returned as is |
| VersionedLicense.BuiltApache | vendor/github.com/greenpau/versioned/license.go:260-289 | the Apache header holds the clue and strip cuts exactly after it in any file it is put in front of |
| VersionedLicense.InspectFindsHeader | vendor/github.com/greenpau/versioned/license.go:126-133 | a header holding the clue at the front of the file is reported found and matching |
| VersionedLicense.AddedPrepends | vendor/github.com/greenpau/versioned/license.go:91 | what AddLicense writes is the header followed by the old contents |
| VersionedLicense.StripPrefixed | vendor/github.com/greenpau/versioned/license.go:106-110 | stripping a file that starts with the header gives what follows it |
| VersionedLicense.AddFindsHeader | vendor/github.com/greenpau/versioned/license.go:85-90 | AddLicense on a file whose header is found and matches writes nothing |
| VersionedLicense.StripAfterAdd | vendor/github.com/greenpau/versioned/license.go:76-113 | stripping a file that AddLicense has just given a header gives the original file back |
| VersionedLicense.AddIdempotent | vendor/github.com/greenpau/versioned/license.go:76-95 | AddLicense on a file it has just given a header writes nothing |
| VersionedLicense.StripWithoutHeader | vendor/github.com/greenpau/versioned/license.go:106-136 | with neither the clue nor "Copyright " in the window, strip leaves the file alone |
| VersionedLicense.LicenseHeader.constructor | vendor/github.com/greenpau/versioned/license.go:69-74 | everything zero except the licence type apache |
| VersionedLicense.LicenseHeader.AddFilePath | vendor/github.com/greenpau/versioned/license.go:201-208 | "" is rejected and keeps the old path; anything else is stored |
| VersionedLicense.LicenseHeader.AddCopyrightHolder | vendor/github.com/greenpau/versioned/license.go:210-217 | "" is rejected and keeps the old holder; anything else is stored |
| VersionedLicense.LicenseHeader.AddYear | vendor/github.com/greenpau/versioned/license.go:219-226 | 0 is rejected and keeps the old year; anything else is stored |
| VersionedLicense.LicenseHeader.AddLicenseType | vendor/github.com/greenpau/versioned/license.go:228-239 | "" and "apache" give apache; anything else is refused and leaves the type unchanged |
| VersionedLicense.LicenseHeader.GetWrapChars | vendor/github.com/greenpau/versioned/license.go:241-258 | the extension is taken from the path when unset, then the comment style is chosen for it or an error returned |
| VersionedLicense.LicenseHeader.Build | vendor/github.com/greenpau/versioned/license.go:260-289 | the header fields after build are the specified comment style and rendered header, or the error |
| VersionedLicense.LicenseHeader.Inspect | vendor/github.com/greenpau/versioned/license.go:115-138 | offset becomes len(raw)+10 and the flags are those of the specified inspection |
| VersionedLicense.LicenseHeader.Rewrite | vendor/github.com/greenpau/versioned/license.go:140-199 | the contents written are the specified rewrite of the file |
| VersionedLicense.AddBuilt | vendor/github.com/greenpau/versioned/license.go:82-94 | after build: inspect, then error on a mismatched header, do nothing on a matching one, and prepend otherwise |
| VersionedLicense.AddLicense | vendor/github.com/greenpau/versioned/license.go:76-95 | AddLicense is build followed by the specified rest |
| VersionedLicense.StripBuilt | vendor/github.com/greenpau/versioned/license.go:103-112 | after build: inspect, then cut the header off only when one is found |
| VersionedLicense.StripLicense | vendor/github.com/greenpau/versioned/license.go:97-113 | StripLicense is build followed by the specified rest |
| VersionedLicense.Execute | vendor/github.com/greenpau/versioned/license.go:40-52 | text/template execution of the parsed template, without a contract of its own; ExecuteApache states the text it gives for tmplApache |
| VersionedToc.SlugChar | vendor/github.com/greenpau/versioned/toc.go:99-108 | a space contributes '-', a character of [0-9a-z-] itself, anything else nothing |
| VersionedToc.SlugOf | vendor/github.com/greenpau/versioned/toc.go:97-108 | the slug has only link characters and is no longer than the lowered title |
| VersionedToc.Slug | vendor/github.com/greenpau/versioned/toc.go:97-108 | the anchor is '#' followed by link characters only |
| VersionedToc.SlugOfDottedCapitalI | vendor/github.com/greenpau/versioned/toc.go:97-108 | a dotted capital I lowers to i and stays in the anchor, as with strings.ToLower |
| VersionedToc.SlugOfKelvinSign | vendor/github.com/greenpau/versioned/toc.go:97-108 | a Kelvin sign lowers to k and stays in the anchor, as with strings.ToLower |
| VersionedToc.SlugOfAllowed | vendor/github.com/greenpau/versioned/toc.go:99-108 | text made only of link characters is its own slug |
| VersionedToc.SlugIdempotent | vendor/github.com/greenpau/versioned/toc.go:97-108 | taking the slug of a slug's text changes nothing |
| VersionedToc.Link | vendor/github.com/greenpau/versioned/toc.go:109-117 | the plain slug on its first use; on its k-th use (k >= 2) the slug followed by "-" and k-1 |
| VersionedToc.SlugsOf | vendor/github.com/greenpau/versioned/toc.go:97-108 | the slug of each title, in order |
| VersionedToc.Links | vendor/github.com/greenpau/versioned/toc.go:123-127 | the i-th title gets the link handed out after the slugs of the titles before it |
| VersionedToc.LinkAfterUse | vendor/github.com/greenpau/versioned/toc.go:109-113 | once a title's slug has been handed out, the title only gets suffixed links |
| VersionedToc.SecondRenderSuffixed | vendor/github.com/greenpau/versioned/toc.go:121-130 | rendering the table a second time gives every entry a suffixed link |
| VersionedToc.Indent | vendor/github.com/greenpau/versioned/toc.go:125 | two spaces per level |
| VersionedToc.TocLine | vendor/github.com/greenpau/versioned/toc.go:124-127 | a line is the indentation of its level below minDepth, then the bullet and the link, then a newline |
| VersionedToc.TocPrefixGrows | vendor/github.com/greenpau/versioned/toc.go:123-128 | the lines of fewer entries are a prefix of the lines of more |
| VersionedToc.TocTextLineAt | vendor/github.com/greenpau/versioned/toc.go:121-130 | the table holds one line per entry, in insertion order |
| VersionedToc.UsedAfter | vendor/github.com/greenpau/versioned/toc.go:109-115 | linking n entries hands out n more slugs |
| VersionedToc.UsedAfterSlugs | vendor/github.com/greenpau/versioned/toc.go:123-127 | linking entry by entry hands out the slugs of the titles, in order |
| VersionedToc.LinksAt | vendor/github.com/greenpau/versioned/toc.go:126 | entry k's link is the one handed out after the first k entries were linked |
| VersionedToc.RenderedIsTocPrefix | vendor/github.com/greenpau/versioned/toc.go:123-128 | rendering entry by entry gives the first lines of the table |
| VersionedToc.RenderedIsTocText | vendor/github.com/greenpau/versioned/toc.go:121-130 | the whole rendering is the table with the links handed out in turn, and the slugs of all titles are then used |
| VersionedToc.ShapedWiden | vendor/github.com/greenpau/versioned/toc.go:78-83 | widening the depth bounds keeps every entry within them |
| VersionedToc.ShapedAppend | vendor/github.com/greenpau/versioned/toc.go:84-92 | appending a heading within the bounds that does not hop a level keeps the shape |
| VersionedToc.TableOfContents.constructor | vendor/github.com/greenpau/versioned/toc.go:45-55 | README.md, no entries, minDepth 1000, maxDepth 0, sep "*", no links handed out |
| VersionedToc.TableOfContents.AddFilePath | vendor/github.com/greenpau/versioned/toc.go:57-63 | an empty path is ignored; otherwise it is stored; nothing else changes |
| VersionedToc.TableOfContents.AddHeading | vendor/github.com/greenpau/versioned/toc.go:65-94 | "" and lines not starting with '#' once trimmed are rejected and change nothing; otherwise depth is the length before the first space and title the trimmed rest; min and max depth follow it even when a hop of more than one level is rejected |
| VersionedToc.TableOfContents.AddEntry | vendor/github.com/greenpau/versioned/toc.go:78-93 | min and max depth follow the heading; a hop of more than one level below a previous heading is rejected with the entries unchanged; otherwise exactly one entry is appended and lastDepth updated |
| VersionedToc.TableOfContents.GetLink | vendor/github.com/greenpau/versioned/toc.go:96-118 | the link is the one specified for the slugs handed out before, and linkRef counts one more use of the slug |
| VersionedToc.TableOfContents.RenderEntry | vendor/github.com/greenpau/versioned/toc.go:123-127 | one loop step appends the line of the next entry, with the next link |
| VersionedToc.TableOfContents.RenderAll | vendor/github.com/greenpau/versioned/toc.go:123-128 | the loop renders every entry in order, each with the next link handed out |
| VersionedToc.TableOfContents.ToString | vendor/github.com/greenpau/versioned/toc.go:120-130 | the table is the specified rendering, and every title's slug is then used once more |
| VersionedToc.SlugLoop | vendor/github.com/greenpau/versioned/toc.go:97-108 | the character loop computes the slug |
| VersionedToc.CountsAdd | vendor/github.com/greenpau/versioned/toc.go:109-115 | handing out a slug once more raises its count by one, or starts it at one |
| VersionedVersion.ParseParts | vendor/github.com/greenpau/versioned/versioned.go:166-182 | empty text is rejected, then text that is not three '.'-separated parts, then the first part that is not a base-10 uint64; otherwise the three parsed values |
| VersionedVersion.ParseRender | vendor/github.com/greenpau/versioned/versioned.go:159-183 | parsing the rendering "major.minor.patch" of any uint64 triple gives back the same triple |
| VersionedVersion.ParseUint64 | vendor/github.com/greenpau/versioned/versioned.go:173-181 | the decimal rendering of a uint64 parses back to it |
| VersionedVersion.ParseThree | vendor/github.com/greenpau/versioned/versioned.go:166-182 | three parsable parts give the parsed triple |
| VersionedVersion.RenderClean | vendor/github.com/greenpau/versioned/versioned.go:162-165 | a rendered version has nothing for the quote and space trims to remove |
| VersionedVersion.NoTrim | vendor/github.com/greenpau/versioned/versioned.go:162-165 | text that starts and ends with a digit is left alone by the trims |
| VersionedVersion.RenderSplit | vendor/github.com/greenpau/versioned/versioned.go:166 | three dot-free parts joined by '.' split back into those parts |
| VersionedVersion.SplitPath | vendor/github.com/greenpau/versioned/versioned.go:204 | filepath.Split: the directory ends in '/' or is empty, the name has no '/', and they rejoin to the path |
| VersionedVersion.SplitPathName | vendor/github.com/greenpau/versioned/versioned.go:204 | a path without '/' is a bare file name |
| VersionedVersion.FileTypeOf | vendor/github.com/greenpau/versioned/versioned.go:209-217 | package.json is npm-package, setup.py is python-package, anything else a version-file |
| VersionedVersion.Version.constructor | vendor/github.com/greenpau/versioned/versioned.go:191-195 | a version holds the given triple and no file details |
| VersionedVersion.Version.Bytes | vendor/github.com/greenpau/versioned/versioned.go:226-229 | the bytes of the rendering, one per character |
| VersionedVersion.Version.IncrementMajor | vendor/github.com/greenpau/versioned/versioned.go:231-236 | major goes up by one (wrapping as uint64), minor and patch become 0, the file details are unchanged, and the argument is unused |
| VersionedVersion.Version.IncrementMinor | vendor/github.com/greenpau/versioned/versioned.go:238-242 | minor goes up by one, patch becomes 0, major and the file details are unchanged |
| VersionedVersion.Version.IncrementPatch | vendor/github.com/greenpau/versioned/versioned.go:244-247 | only patch goes up by one |
| VersionedVersion.Version.SetFile | vendor/github.com/greenpau/versioned/versioned.go:202-219 | never fails; records the path, splits it into directory and name, and classifies the name; the triple is unchanged |
| VersionedVersion.RenderIsAscii | vendor/github.com/greenpau/versioned/versioned.go:222-229 | the rendering is all digits and dots |
| VersionedVersion.NewVersion | vendor/github.com/greenpau/versioned/versioned.go:185-200 | fails exactly when parseVersion does, with its error; otherwise a fresh version of the parsed triple kept in the file VERSION, a version-file |
| VersionedVersion.DefaultFile | vendor/github.com/greenpau/versioned/versioned.go:196-217 | the default file VERSION sits in the current directory and is a plain version file |
| VersionedVersion.Clause | vendor/github.com/greenpau/versioned/versioned.go:65-70 | a labelled clause is present exactly when its value is set, label first |
| VersionedVersion.BuildClause | vendor/github.com/greenpau/versioned/versioned.go:71-87 | the build clause appears exactly when user and date are both set, and names os/arch inside it exactly when both are set |
| VersionedVersion.BannerShape | vendor/github.com/greenpau/versioned/versioned.go:61-89 | the banner starts with "name version", each clause follows in turn, and it is just that exactly when no clause applies |
| VersionedVersion.PackageManager.constructor | vendor/github.com/greenpau/versioned/versioned.go:41-46 | only the name is set |
| VersionedVersion.PackageManager.SetVersion | vendor/github.com/greenpau/versioned/versioned.go:98-105 | Version becomes v when non-empty and d otherwise; nothing else changes |
| VersionedVersion.PackageManager.SetGitBranch | vendor/github.com/greenpau/versioned/versioned.go:107-114 | Git.Branch becomes v when non-empty and d otherwise; nothing else changes |
| VersionedVersion.PackageManager.SetGitCommit | vendor/github.com/greenpau/versioned/versioned.go:116-123 | Git.Commit becomes v when non-empty and d otherwise; nothing else changes |
| VersionedVersion.PackageManager.SetBuildUser | vendor/github.com/greenpau/versioned/versioned.go:125-132 | Build.User becomes v when non-empty and d otherwise; nothing else changes |
| VersionedVersion.PackageManager.SetBuildDate | vendor/github.com/greenpau/versioned/versioned.go:134-141 | Build.Date becomes v when non-empty and d otherwise; nothing else changes |
| VersionedVersion.CleanVersion | vendor/github.com/greenpau/versioned/versioned.go:162-165 | the text parseVersion reads, without a contract of its own; RenderClean and ParseRender state that a rendered version is already clean and parses back |
| VersionedVersion.ParseVersion | vendor/github.com/greenpau/versioned/versioned.go:159-183 | parseVersion on the cleaned text, without a contract of its own; ParseParts states its errors in order and its three values, and ParseRender the round trip from a rendering |
| VersionedVersion.Version.String | vendor/github.com/greenpau/versioned/versioned.go:222-225 | the "major.minor.patch" rendering, without a contract of its own; ParseRender states that it parses back to the same triple and RenderIsAscii that it holds only digits and dots |
| VersionedVersion.PackageManager.Banner | vendor/github.com/greenpau/versioned/versioned.go:62-89 | the banner of the package fields, without a contract of its own; BannerShape states that it starts with "name version" and each clause follows in turn |

## Left out

- The Caddyfile dispenser (caddyfile.Dispenser) belongs to Caddy itself and is not part of this model. `Caddyfile` stands in for it as a flat list of tokens with line numbers. Nested `{` blocks are not treated specially when arguments are collected.
- Olaf's adapter, expander and Caddy module glue (`caddyconfig/adapter`, `caddymodule/olaf.go`) are left out: they are a dynamic map walk, the Caddyfile adapter and file or HTTP loading.
- Olaf `Route.Priority` is a float64; the model uses an integer, because only the order between priorities is used.
- Go map iteration order is unspecified. Where the order can be seen, the model takes it as an input sequence: the routes given to `sortRoutes`, the plugins of each scope, the SCGI parameters and the supervisor environment.
- Olaf's internal maps are visited in an order the model fixes. `SplitPaths` lists the regular-expression paths in the order of their first appearance in the route's path list. `typedPlugins` and `emptyOrderAfterPlugins` in `sortPluginsByOrderAfter` are visited in the order their keys were inserted, which is the order of the plugin list.
- Regular expressions, `time.ParseDuration`, `net.SplitHostPort`, `net.ParseIP`, `url.Parse`, `url.QueryEscape`, canonical header keys, `filepath.Clean`/`Join`, mapstructure, JSON, YAML and ASN.1 decoding, `text/template` rendering, `x509util.SplitSANs` and signing are oracles. Each is a function-valued parameter or a precomputed input of the member that uses it.
- ScgiClient.PostMethod: Go's `strings.ToUpper` maps every Unicode letter, while `ToUpperChar` maps only the characters whose upper case is ASCII: a-z, U+0131 and U+017F. The decision between the verb and POST is therefore exact, but a kept verb with another non-ASCII lower-case letter keeps that letter unchanged.
- SmallstepSSH.GetSSHBastionSound: Go's `strings.EqualFold` folds all of Unicode, while `EqualFold` folds only the orbits that hold an ASCII letter, including the Kelvin sign and the long s. Two hostnames that differ only in the case of another non-ASCII letter count as different here.
- VersionedToc.Slug lowers only the characters whose lower case is ASCII (A-Z, U+0130, U+212A) and keeps every other character. Only those characters can lower into the link alphabet [0-9a-z-], and any other character is dropped whether lowered or not, so the anchor is the one Go computes.
- VersionedToc.TableOfContents.AddHeading requires a space in a line that starts with '#' once trimmed. Go indexes the second part of `strings.SplitN(s, " ", 2)` unguarded (toc.go:73-76) and panics on a line like "#Title".
- AlidnsClient.SortByKey: Go's `sort.Sort` is not stable, while the model is a stable insertion sort. The two agree whenever the keys are distinct, and `SortKeepsKeysUnique` shows sorting keeps them distinct. The client mutex, `applyReq`, `signStr` (HMAC-SHA1 and base64) and `getAliClient` are left out: they are HTTP, locking and cryptography.
- The greenpau/versioned file reads and writes are left out (`UpdateFile`, `readVersionFromFile`, `UpdateToc` and the file I/O of `license.go`). File contents are byte or line sequences instead.
- SmallstepSSH: `GetSSHRoots`, `GetSSHFederation`, `CheckSSHHost` and `GetSSHHosts` are left out, because they only return stored keys or consult the database. Storing the certificate is an oracle. The nonce, the serial number and the signer's output are inputs.
- SmallstepConfig: `LoadConfiguration` and `Save` are left out (file I/O and JSON). The KMS, RA, SSH and template validators that `Validate` calls are oracles.
- SmallstepOptions: `unsafeParseSigned` is left out, because it parses a JWT.
- SmallstepOptions.ProvisionerData: the error is "error unmarshaling template data" without the decoder's cause that `errors.Wrap` appends, because the JSON decoder is a parameter that gives no message.
- StepTemplates: the default template strings and `NewCertificateRequest` are left out. They are text constants and a CSR builder that calls into cryptography.
- ScgiClient: `PostForm`, `PostFile`, the `Dial*` functions, `Close` and the read and write timeouts are left out (network and multipart encoding). Reading the response body is left out. Only the status line is modelled.
- MaxmindGeolocation: when no country list is set, the code returns false. The source's comments say such requests then all pass or are all refused. The model follows the code. `Provision` and `Cleanup` open and close the database and are left out; the lookup result is an input.
- MaxmindGeolocation.ListValuesAppend is proved for the `allow_countries` directive. The other five list directives share its code path and are not proved separately.
- MemoryAllocator: pools are bags of buffers. `sync.Pool` may drop or reuse entries, so only what goes in and out of each size class is modelled. The int-to-uint32 conversion of the size is written out. The unsafe `Alloc`/`Free` are left out. `Put` requires a buffer, because the source dereferences its argument unchecked.
- TlsFormat: only the string field type code of zap is modelled, and both filters set it on the field they return. `tls.CipherSuiteName` is an oracle.
- GeoipupdateConfig: the wrapped messages of `errors.Wrap` are dropped, and only the error's kind and line are kept. Reading the file and the scanner's own errors are left out. The file is a sequence of lines.
- SupervisorDefinition: `user.Lookup` and the template processing of the arguments are oracles, and the logger is left out. `ToSupervisors` requires a non-empty `Command`, because the source reads `Command[0]` unguarded.
- Gopkg: `c.ArgErr()` is an `ArgErr` carrying the token it points at. Template rendering is an oracle that succeeds or fails. `http.Redirect` is a 307 response with the handler returning status 0. Plugin registration and `setup` glue are left out, and so is the vendored `magnax.ca/caddy/gopkg`.
- The clock (`time.Now`) is a parameter wherever the source reads it.
- Concurrency is left out: the mutexes, goroutines and `sync.Pool` thread safety.

## Findings

| source | as written | input that shows it | evidently intended | confidence | as-written member | corrected member |
|---|---|---|---|---|---|---|
| vendor/github.com/cubic3d/caddy-quantity-limiter/ql.go:55 | when the requested token has no quota left, the handler deletes the counter entry keyed by the get parameter's own name (`ql.paramGet`), not the token's entry | get parameter "ql_get" and counter {"ql_get": 1}; the request `?ql_get=other` is answered 404, and token "ql_get" loses its remaining request | delete the entry of the requested token | high; not executed | QuantityLimiter.AsWrittenLosesQuota | QuantityLimiter.ServeSpec |
