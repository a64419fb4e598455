# CIF hunters and request gate, modelled in Dafny

This project models three small pieces of a CIF-style threat-intelligence
service (a service that shares indicators of compromise between feeds):

- the **nameserver hunter** (`cif_hunter/fqdn_ns.py`). For a stored FQDN
  indicator it looks up the domain's nameserver records. It derives one new
  indicator per usable record. Each one is a copy of the input with a new
  indicator text, `lasttime`, itype `ipv4`, `rdata` pointing back at the
  input, and a confidence lowered by 4 (never below 0);
- the **subdomain hunter** (`cif_hunter/fqdn_subdomain.py`). For an FQDN that
  is a subdomain, it derives at most one indicator for the parent domain. Its
  confidence is lowered by 3 (never below 0);
- the **request gate** of the REST front end (`before_request` in
  `cif_httpd/app.py`). It decides whether a request goes on, gets 404 or gets
  401. It also applies the `_method` form-field override.

Files:

- `indicators.dfy`: `Option`, the `Indicator` record, `Decay` and
  `KeepsUnrelatedFields`. The last one says which fields a hunter copies
  untouched.
- `fqdn_ns.dfy`: the nameserver hunter. `Process` is a method with the
  source's loop. It is proved equal to the recursive filter-map `Derived`.
  The lemmas prove how many indicators come out, their order, which records
  are dropped, and every field of the output.
- `fqdn_subdomain.dfy`: the subdomain hunter as a function returning
  `Option<Indicator>`.
- `httpd_gate.dfy`: the request gate as a function returning the outcome and
  the method the request carries afterwards.

Things the source leaves to code outside this model are parameters:

- the nameserver lookup (`resolve_ns`, with its `Timeout`) is
  `resolveNs: string -> Lookup`;
- `resolve_itype` accepting or refusing a text is `resolves: string -> bool`;
- `Indicator.is_subdomain()` is `subdomainOf: string -> Option<string>`;
- `pull_token()` is `token: Option<string>`;
- the `ENABLED` and `HTTP_LISTEN` settings are `enabled` and `listen`;
- `arrow.utcnow()` is `now`.

Indicators are immutable values here. So "the input is not modified" holds
by construction: each hunter returns new records.

One might expect the nameserver hunter to strip the trailing dot from the
record and label the result `fqdn`. The code does neither. It keeps `str(rr)`
with its dot and always sets itype `ipv4` (cif_hunter/fqdn_ns.py:35,43).
`FqdnNs.NameserverExample` shows this.

## Model

| member | source | states |
|---|---|---|
| `Indicators.Decay` | cif_hunter/fqdn_ns.py:45 | decayed confidence is max(0, c - amount): never negative, never above a non-negative c, exactly c - amount when c >= amount |
| `FqdnNs.StripTrailingDots` | cif_hunter/fqdn_ns.py:31 | `rstrip('.')`: the result is a prefix of the text, does not end in a dot, and only dots were removed |
| `FqdnNs.Process` | cif_hunter/fqdn_ns.py:13-48 | returns nothing exactly when the hunter is disabled, the itype is not `fqdn`, the tags hold `search` or the lookup times out; otherwise the loop's list equals the filter-map `Derived` over the records |
| `FqdnNs.DerivedAppend` | cif_hunter/fqdn_ns.py:28-46 | the records are handled one by one: deriving from `a + b` is deriving from `a`, then from `b` |
| `FqdnNs.DerivedIsCloneOfKept` | cif_hunter/fqdn_ns.py:30-46 | the output is the kept records, in order, each turned into a clone of the input |
| `FqdnNs.KeptRecordsAtMost` | cif_hunter/fqdn_ns.py:28-48 | there are never more derived indicators than records |
| `FqdnNs.KeptRecordsInOrder` | cif_hunter/fqdn_ns.py:30-46 | the kept records are a subsequence of the lookup's records, so their order is kept |
| `FqdnNs.KeptRecordsMembers` | cif_hunter/fqdn_ns.py:31-41 | a record is kept exactly when its text without trailing dots is neither empty nor `localhost` (case-sensitive) and `resolve_itype` accepts it |
| `FqdnNs.DerivedFields` | cif_hunter/fqdn_ns.py:34-45 | every output has the record's unstripped text as indicator, itype `ipv4`, the input's indicator as rdata, `lasttime` = now and confidence decayed by 4; tags, provider, group, firsttime and all other attributes are the input's |
| `FqdnNs.DerivedConfidenceBounded` | cif_hunter/fqdn_ns.py:45 | for an input confidence >= 0, every derived confidence lies between 0 and the input's |
| `FqdnNs.NameserverExample` | cif_hunter/fqdn_ns.py:30-46 | `ns1.example.com.` becomes an `ipv4` indicator that keeps the dot, with confidence 5 lowered to 1; `localhost.` and `.` are dropped; `LOCALHOST.` is kept |
| `FqdnSubdomain.Process` | cif_hunter/fqdn_subdomain.py:6-26 | at most one indicator. It is produced exactly when the itype is `fqdn`, the tags lack `search`, `is_subdomain()` is non-empty and the parent classifies. It has the parent as indicator, `lasttime` = now and confidence decayed by 3, never negative and never above the input's. Everything else is copied, including itype and rdata |
| `FqdnSubdomain.ResultIsHunterInput` | cif_hunter/fqdn_subdomain.py:16-26 | the parent-domain indicator is again an FQDN without the `search` tag, with a strictly lower confidence when the input's was at least 3 |
| `HttpdGate.UpperChar` | cif_httpd/app.py:88 | `upper()` on one character: an ASCII lower-case letter becomes the capital at the same place in the alphabet; all else is unchanged |
| `HttpdGate.Upper` | cif_httpd/app.py:88 | `upper()` keeps the length, maps each character, and leaves no ASCII lower-case letter |
| `HttpdGate.MethodOverride` | cif_httpd/app.py:88-89 | the override is empty exactly when the `_method` field is absent or empty; otherwise it is the upper-cased field |
| `HttpdGate.BeforeRequest` | cif_httpd/app.py:73-100 | a GET to a whitelisted endpoint goes on, and a GET for `favicon` gets 404, both judged on the original method. Otherwise a non-empty `_method` becomes the method. A 401 comes exactly when the request is neither of those, the server does not listen on `127.0.0.1`, and the token is missing, empty or `None`. Every other request goes on |
| `HttpdGate.OverrideDoesNotExempt` | cif_httpd/app.py:81-100 | a POST with `_method=get` to a whitelisted endpoint, with no token, on a public address, becomes a GET yet gets 401 |

## Left out

- `FqdnNs.Process`: uses one clock reading `now` for every derived indicator. The source calls `arrow.utcnow()` once per record, so its timestamps may differ slightly between records.
- `HttpdGate.Upper`: upper-cases only the ASCII letters. Python's `str.upper()` also maps other Unicode letters, and some of them change length.
- The `Indicator` class of the indicator library is modelled as a plain immutable record. Its constructor and attribute setters are not part of this model. The model assumes `Indicator(**i.__dict__())` copies every field exactly, and that assigning `indicator` stores the text unchanged, without normalising it. The result that a derived indicator keeps its trailing dot rests on that assumption.
- Confidence is an integer. The source may hold a float, but the hunters only subtract, compare and floor it.
- Exceptions other than `Timeout` raised by `resolve_ns` would propagate out of the nameserver hunter. They are not modelled.
- The nameserver lookup, `resolve_itype`, `is_subdomain`, `pull_token` and the settings modules are not part of this model. They come in as parameters, and the model assumes they answer the same way each time they are asked.
- The rest of `cif_httpd/app.py` is not modelled: the Flask, CORS, compression and API wiring, logging set-up, argument parsing, the PID file and server start-up in `main`. All of it is framework plumbing or operating-system side effects. The gate gives its decision as a value; the source raises the abort and rewrites `REQUEST_METHOD` and the URL adapter's default method in place.
- The indicator store and the token handler are not part of this model, because their code is not among the files modelled. The same goes for the exception classes in `cif/exceptions.py`, which declare no behaviour.
