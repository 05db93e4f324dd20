/** Explicit TLS policies: parsing of one annotation, merging of the annotations that share a
    target, and resolution against the locked defaults. */
module TlsPolicy {
  import opened Wrappers
  import opened Text
  import Sorting

  const TLS12 := "TLSv1.2"
  const TLS13 := "TLSv1.3"
  const CUSTOMIZED_CIPHER := "oci-customized-ssl-cipher-suite"
  const UNSAFE_CIPHERS := {
    "oci-compatible-ssl-cipher-suite-v1",
    "oci-wider-compatible-ssl-cipher-suite-v1",
    "oci-tls-11-12-13-wider-ssl-cipher-suite-v1" }

  /** A decoded annotation value: the fields read before the decoder stopped, and whether it
      stopped at the clean end of a JSON object. */
  datatype Document = NotAnObject | Object(fields: seq<Field>, clean: bool)
  datatype Field = Field(key: string, value: Json)
  datatype Json = JNull | JString(text: string) | JStrings(items: seq<string>) | JOther

  datatype ExplicitPolicy = ExplicitPolicy(cipher: Option<string>, protocols: Option<seq<string>>)

  datatype PolicyError =
    | Malformed
    | UnknownField(key: string)
    | NullValue(key: string)
    | WrongType(key: string)
    | EmptyValue(key: string)
    | RefusedCipher(cipher: string)
    | RefusedProtocol(protocol: string)
    | DuplicateField(key: string)
    | NoField

  predicate Blank(s: string) {
    forall i :: 0 <= i < |s| ==> s[i] in {' ', '\t', '\n', '\r', '\U{0B}', '\U{0C}', '\U{85}', '\U{A0}'}
  }

  // ---- Protocol lists --------------------------------------------------------------------

  function Canonical(seen: set<string>): seq<string> {
    (if TLS12 in seen then [TLS12] else []) + (if TLS13 in seen then [TLS13] else [])
  }

  predicate Supported(protocol: string) {
    protocol == TLS12 || protocol == TLS13
  }

  function FirstRefused(key: string, protocols: seq<string>): Option<PolicyError> {
    if protocols == [] then None
    else if Blank(protocols[0]) then Some(EmptyValue(key))
    else if Supported(protocols[0]) then FirstRefused(key, protocols[1..])
    else Some(RefusedProtocol(protocols[0]))
  }

  function Normalized(key: string, protocols: seq<string>): Result<seq<string>, PolicyError> {
    if protocols == [] then Err(EmptyValue(key))
    else match FirstRefused(key, protocols)
      case Some(e) => Err(e)
      case None => Ok(Canonical(Sorting.Elements(protocols)))
  }

  method NormalizeProtocols(key: string, protocols: seq<string>) returns (r: Result<seq<string>, PolicyError>)
    ensures r == Normalized(key, protocols)
  {
    if |protocols| == 0 {
      return Err(EmptyValue(key));
    }
    var seen: set<string> := {};
    for i := 0 to |protocols|
      invariant seen == set x | x in protocols[..i]
      invariant FirstRefused(key, protocols) == FirstRefused(key, protocols[i..])
    {
      if Blank(protocols[i]) {
        return Err(EmptyValue(key));
      }
      if !Supported(protocols[i]) {
        return Err(RefusedProtocol(protocols[i]));
      }
      seen := seen + {protocols[i]};
      assert protocols[..i + 1] == protocols[..i] + [protocols[i]];
      assert protocols[i..][1..] == protocols[i + 1..];
    }
    assert protocols[..|protocols|] == protocols;
    var known := [TLS12, TLS13];
    var normalized: seq<string> := [];
    for i := 0 to |known|
      invariant normalized == (if i > 0 && TLS12 in seen then [TLS12] else [])
                            + (if i > 1 && TLS13 in seen then [TLS13] else [])
    {
      if known[i] in seen {
        normalized := normalized + [known[i]];
      }
    }
    return Ok(normalized);
  }

  lemma {:induction false} NothingRefused(key: string, protocols: seq<string>)
    ensures FirstRefused(key, protocols).None? <==> forall p :: p in protocols ==> Supported(p)
  {
    if protocols != [] {
      NothingRefused(key, protocols[1..]);
      assert protocols == [protocols[0]] + protocols[1..];
      assert !Blank(TLS12) by { assert TLS12[0] == 'T'; }
      assert !Blank(TLS13) by { assert TLS13[0] == 'T'; }
    }
  }

  /** A protocol list is accepted exactly when it is non-empty and names only TLS 1.2 and 1.3. */
  lemma NormalizedAccepts(key: string, protocols: seq<string>)
    ensures Normalized(key, protocols).Ok? <==> protocols != [] && forall p :: p in protocols ==> Supported(p)
    ensures Normalized(key, protocols).Ok? ==>
      Normalized(key, protocols).value in {[TLS12], [TLS13], [TLS12, TLS13]}
      && forall p :: p in Normalized(key, protocols).value <==> p in protocols
  {
    NothingRefused(key, protocols);
    if Normalized(key, protocols).Ok? {
      var seen := Sorting.Elements(protocols);
      assert protocols[0] in seen;
      assert TLS12 in seen || TLS13 in seen;
      assert TLS12 != TLS13 by { assert TLS12[6] != TLS13[6]; }
      assert Canonical(seen) == if TLS12 !in seen then [TLS13] else if TLS13 in seen then [TLS12, TLS13] else [TLS12];
    }
  }

  /** Two accepted lists normalize to the same list exactly when they name the same protocols. */
  lemma NormalizedComparesSets(k1: string, p: seq<string>, k2: string, q: seq<string>)
    requires Normalized(k1, p).Ok? && Normalized(k2, q).Ok?
    ensures Normalized(k1, p) == Normalized(k2, q) <==> Sorting.Elements(p) == Sorting.Elements(q)
  {
    NormalizedAccepts(k1, p);
    NormalizedAccepts(k2, q);
    if Normalized(k1, p) == Normalized(k2, q) {
      forall x ensures x in p <==> x in q {
        assert x in p <==> x in Normalized(k1, p).value;
        assert x in q <==> x in Normalized(k2, q).value;
      }
    }
  }

  // ---- One annotation --------------------------------------------------------------------

  predicate CipherKey(key: string) { key == "cipherSuiteName" || key == "CipherSuiteName" }
  predicate ProtocolsKey(key: string) { key == "protocols" || key == "Protocols" }

  function CipherOf(f: Field): Result<string, PolicyError> {
    match f.value
    case JNull => Err(NullValue(f.key))
    case JString(text) =>
      if Blank(text) then Err(EmptyValue(f.key))
      else if text == CUSTOMIZED_CIPHER || text in UNSAFE_CIPHERS then Err(RefusedCipher(text))
      else Ok(text)
    case _ => Err(WrongType(f.key))
  }

  function ProtocolsOf(f: Field): Result<seq<string>, PolicyError> {
    match f.value
    case JNull => Err(NullValue(f.key))
    case JStrings(items) => Normalized(f.key, items)
    case _ => Err(WrongType(f.key))
  }

  /** What one field adds to the policy read so far. */
  function AddField(policy: ExplicitPolicy, f: Field): Result<ExplicitPolicy, PolicyError> {
    if CipherKey(f.key) then
      match CipherOf(f)
      case Err(e) => Err(e)
      case Ok(c) =>
        if policy.cipher.Some? && policy.cipher.value != c then Err(DuplicateField(f.key))
        else Ok(policy.(cipher := Some(c)))
    else if ProtocolsKey(f.key) then
      match ProtocolsOf(f)
      case Err(e) => Err(e)
      case Ok(ps) =>
        if policy.protocols.Some? && policy.protocols.value != ps then Err(DuplicateField(f.key))
        else Ok(policy.(protocols := Some(ps)))
    else Err(UnknownField(f.key))
  }

  function AddFields(policy: ExplicitPolicy, fields: seq<Field>): Result<ExplicitPolicy, PolicyError>
    decreases |fields|
  {
    if fields == [] then Ok(policy)
    else match AddField(policy, fields[0])
      case Err(e) => Err(e)
      case Ok(p) => AddFields(p, fields[1..])
  }

  const NO_POLICY := ExplicitPolicy(None, None)

  function Parsed(doc: Document): Result<ExplicitPolicy, PolicyError> {
    if doc.NotAnObject? then Err(Malformed)
    else match AddFields(NO_POLICY, doc.fields)
      case Err(e) => Err(e)
      case Ok(p) =>
        if !doc.clean then Err(Malformed)
        else if doc.fields == [] then Err(NoField)
        else if p == NO_POLICY then Err(NoField)
        else Ok(p)
  }

  method ParseExplicitTlsPolicy(doc: Document) returns (r: Result<ExplicitPolicy, PolicyError>)
    ensures r == Parsed(doc)
  {
    if doc.NotAnObject? {
      return Err(Malformed);
    }
    var policy := NO_POLICY;
    var fieldCount := 0;
    while fieldCount < |doc.fields|
      invariant 0 <= fieldCount <= |doc.fields|
      invariant AddFields(NO_POLICY, doc.fields) == AddFields(policy, doc.fields[fieldCount..])
    {
      var f := doc.fields[fieldCount];
      assert doc.fields[fieldCount..][0] == f && doc.fields[fieldCount..][1..] == doc.fields[fieldCount + 1..];
      fieldCount := fieldCount + 1;
      if CipherKey(f.key) {
        var c := CipherOf(f);
        if c.Err? {
          return Err(c.error);
        }
        if policy.cipher.Some? && policy.cipher.value != c.value {
          return Err(DuplicateField(f.key));
        }
        policy := policy.(cipher := Some(c.value));
      } else if ProtocolsKey(f.key) {
        var ps: Result<seq<string>, PolicyError>;
        match f.value {
          case JNull => ps := Err(NullValue(f.key));
          case JStrings(items) => ps := NormalizeProtocols(f.key, items);
          case _ => ps := Err(WrongType(f.key));
        }
        if ps.Err? {
          return Err(ps.error);
        }
        if policy.protocols.Some? && policy.protocols.value != ps.value {
          return Err(DuplicateField(f.key));
        }
        policy := policy.(protocols := Some(ps.value));
      } else {
        return Err(UnknownField(f.key));
      }
    }
    if !doc.clean {
      return Err(Malformed);
    }
    if fieldCount == 0 || policy == NO_POLICY {
      return Err(NoField);
    }
    return Ok(policy);
  }

  /** A field is acceptable on its own, and states part of a policy. */
  predicate FieldOk(f: Field) {
    (CipherKey(f.key) && CipherOf(f).Ok?) || (ProtocolsKey(f.key) && ProtocolsOf(f).Ok?)
  }

  function Stated(f: Field): ExplicitPolicy
    requires FieldOk(f)
  {
    if CipherKey(f.key) then ExplicitPolicy(Some(CipherOf(f).value), None)
    else ExplicitPolicy(None, Some(ProtocolsOf(f).value))
  }

  /** `p` says nothing that `q` does not say. */
  predicate Below(p: ExplicitPolicy, q: ExplicitPolicy) {
    (p.cipher.Some? ==> q.cipher == p.cipher) && (p.protocols.Some? ==> q.protocols == p.protocols)
  }

  ghost predicate FieldsBelow(fields: seq<Field>, q: ExplicitPolicy) {
    forall f :: f in fields ==> FieldOk(f) && Below(Stated(f), q)
  }

  lemma AddFieldJoins(p: ExplicitPolicy, f: Field, u: ExplicitPolicy)
    ensures FieldOk(f) && Below(p, u) && Below(Stated(f), u) ==>
      AddField(p, f).Ok? && Below(AddField(p, f).value, u)
    ensures AddField(p, f).Ok? ==>
      FieldOk(f) && Below(p, AddField(p, f).value) && Below(Stated(f), AddField(p, f).value)
  {
    assert CipherKey(f.key) ==> !ProtocolsKey(f.key) by {
      if CipherKey(f.key) { assert |f.key| == 15; }
      if ProtocolsKey(f.key) { assert |f.key| == 9; }
    }
  }

  lemma BelowTransitive(p: ExplicitPolicy, q: ExplicitPolicy, r: ExplicitPolicy)
    requires Below(p, q) && Below(q, r)
    ensures Below(p, r)
  {
  }

  /** Reading the fields computes their least upper bound, and fails exactly when none exists. */
  lemma {:induction false} AddFieldsJoins(p: ExplicitPolicy, fields: seq<Field>, u: ExplicitPolicy)
    ensures FieldsBelow(fields, u) && Below(p, u) ==>
      AddFields(p, fields).Ok? && Below(AddFields(p, fields).value, u)
    ensures AddFields(p, fields).Ok? ==>
      FieldsBelow(fields, AddFields(p, fields).value) && Below(p, AddFields(p, fields).value)
    decreases |fields|
  {
    if fields != [] {
      var f := fields[0];
      assert fields == [f] + fields[1..];
      AddFieldJoins(p, f, u);
      if AddField(p, f).Ok? {
        var p' := AddField(p, f).value;
        AddFieldsJoins(p', fields[1..], u);
        if AddFields(p, fields).Ok? {
          var q := AddFields(p, fields).value;
          BelowTransitive(p, p', q);
          BelowTransitive(Stated(f), p', q);
        }
      }
    }
  }

  /** An annotation is accepted exactly when it is a well-formed object with at least one field
      whose fields are all acceptable and agree with some policy; the result is the least such
      policy. */
  lemma ParseAccepts(doc: Document, u: ExplicitPolicy)
    ensures doc.Object? && doc.clean && doc.fields != [] && FieldsBelow(doc.fields, u) ==>
      Parsed(doc).Ok? && Below(Parsed(doc).value, u)
    ensures Parsed(doc).Ok? ==>
      doc.Object? && doc.clean && doc.fields != [] && FieldsBelow(doc.fields, Parsed(doc).value)
  {
    if doc.Object? {
      AddFieldsJoins(NO_POLICY, doc.fields, u);
      if doc.fields != [] && AddFields(NO_POLICY, doc.fields).Ok? {
        assert doc.fields[0] in doc.fields;
        assert Below(Stated(doc.fields[0]), AddFields(NO_POLICY, doc.fields).value);
      }
    }
  }

  /** What a parsed or merged policy may contain. */
  predicate Requestable(p: ExplicitPolicy) {
    (p.cipher.Some? ==> p.cipher.value != CUSTOMIZED_CIPHER)
    && (p.protocols.Some? ==> p.protocols.value in {[TLS12], [TLS13], [TLS12, TLS13]})
  }

  lemma {:induction false} AddFieldsRequestable(p: ExplicitPolicy, fields: seq<Field>)
    requires Requestable(p) && AddFields(p, fields).Ok?
    ensures Requestable(AddFields(p, fields).value)
    decreases |fields|
  {
    if fields != [] {
      if ProtocolsKey(fields[0].key) && fields[0].value.JStrings? {
        NormalizedAccepts(fields[0].key, fields[0].value.items);
      }
      AddFieldsRequestable(AddField(p, fields[0]).value, fields[1..]);
    }
  }

  // ---- Merging the annotations of one target ---------------------------------------------

  datatype Candidate = Candidate(ingressKey: string, annotation: string, raw: string)

  datatype FieldValue = CipherSuiteName(name: string) | Protocols(list: seq<string>)

  datatype MergeError =
    | Invalid(ingressKey: string, error: PolicyError)
    | Conflict(annotation: string, owner: string, held: FieldValue, ingressKey: string, offered: FieldValue)

  predicate CandidateLess(a: Candidate, b: Candidate) {
    if a.ingressKey != b.ingressKey then Lt(a.ingressKey, b.ingressKey)
    else if a.annotation != b.annotation then Lt(a.annotation, b.annotation)
    else Lt(a.raw, b.raw)
  }

  datatype Merge = Merge(merged: Option<ExplicitPolicy>, cipherOwner: string, protocolsOwner: string, seen: set<Candidate>)

  const NOTHING_MERGED := Merge(None, "", "", {})

  function MergedOrNone(m: Merge): ExplicitPolicy {
    if m.merged.None? then NO_POLICY else m.merged.value
  }

  /** One turn of the merge loop. */
  function MergeOne(decode: string -> Document, m: Merge, c: Candidate): Result<Merge, MergeError> {
    if c in m.seen then Ok(m)
    else match Parsed(decode(c.raw))
      case Err(e) => Err(Invalid(c.ingressKey, e))
      case Ok(p) =>
        var prior := MergedOrNone(m);
        if p.cipher.Some? && prior.cipher.Some? && prior.cipher != p.cipher then
          Err(Conflict(c.annotation, m.cipherOwner, CipherSuiteName(prior.cipher.value), c.ingressKey, CipherSuiteName(p.cipher.value)))
        else if p.protocols.Some? && prior.protocols.Some? && prior.protocols != p.protocols then
          Err(Conflict(c.annotation, m.protocolsOwner, Protocols(prior.protocols.value), c.ingressKey, Protocols(p.protocols.value)))
        else
          Ok(Merge(
            Some(ExplicitPolicy(if p.cipher.Some? then p.cipher else prior.cipher,
                                if p.protocols.Some? then p.protocols else prior.protocols)),
            if p.cipher.Some? && prior.cipher.None? then c.ingressKey else m.cipherOwner,
            if p.protocols.Some? && prior.protocols.None? then c.ingressKey else m.protocolsOwner,
            m.seen + {c}))
  }

  function MergeAll(decode: string -> Document, m: Merge, cs: seq<Candidate>): Result<Merge, MergeError>
    decreases |cs|
  {
    if cs == [] then Ok(m)
    else match MergeOne(decode, m, cs[0])
      case Err(e) => Err(e)
      case Ok(m') => MergeAll(decode, m', cs[1..])
  }

  function Merged(decode: string -> Document, cs: seq<Candidate>): Result<Option<ExplicitPolicy>, MergeError> {
    match MergeAll(decode, NOTHING_MERGED, Sorting.Sort(CandidateLess, cs))
    case Err(e) => Err(e)
    case Ok(m) => Ok(m.merged)
  }

  method MergeExplicitTlsPolicyCandidates(decode: string -> Document, candidates: seq<Candidate>)
    returns (r: Result<Option<ExplicitPolicy>, MergeError>)
    ensures r == Merged(decode, candidates)
  {
    var sorted := Sorting.Sort(CandidateLess, candidates);
    var merged: Option<ExplicitPolicy> := None;
    var cipherOwner, protocolsOwner := "", "";
    var seen: set<Candidate> := {};
    for i := 0 to |sorted|
      invariant MergeAll(decode, NOTHING_MERGED, sorted)
             == MergeAll(decode, Merge(merged, cipherOwner, protocolsOwner, seen), sorted[i..])
    {
      var c := sorted[i];
      assert sorted[i..][0] == c && sorted[i..][1..] == sorted[i + 1..];
      if c !in seen {
        seen := seen + {c};
        var parsed := ParseExplicitTlsPolicy(decode(c.raw));
        if parsed.Err? {
          return Err(Invalid(c.ingressKey, parsed.error));
        }
        var policy := parsed.value;
        if merged.None? {
          merged := Some(NO_POLICY);
        }
        if policy.cipher.Some? {
          if merged.value.cipher.Some? && merged.value.cipher != policy.cipher {
            return Err(Conflict(c.annotation, cipherOwner, CipherSuiteName(merged.value.cipher.value), c.ingressKey, CipherSuiteName(policy.cipher.value)));
          }
          if merged.value.cipher.None? {
            cipherOwner := c.ingressKey;
          }
          merged := Some(merged.value.(cipher := policy.cipher));
        }
        if policy.protocols.Some? {
          if merged.value.protocols.Some? && merged.value.protocols != policy.protocols {
            return Err(Conflict(c.annotation, protocolsOwner, Protocols(merged.value.protocols.value), c.ingressKey, Protocols(policy.protocols.value)));
          }
          if merged.value.protocols.None? {
            protocolsOwner := c.ingressKey;
          }
          merged := Some(merged.value.(protocols := policy.protocols));
        }
      }
    }
    return Ok(merged);
  }

  lemma CandidateOrder(dom: set<Candidate>)
    ensures Sorting.StrictWeakOrder(CandidateLess, dom)
    ensures Sorting.TiesAgree(CandidateLess, (c: Candidate) => c, dom)
  {
    forall a, b, c | a in dom && b in dom && c in dom
      ensures !CandidateLess(a, a)
      ensures CandidateLess(a, b) && CandidateLess(b, c) ==> CandidateLess(a, c)
      ensures a != b ==> CandidateLess(a, b) || CandidateLess(b, a)
    {
      CandidateTriple(a, b, c);
    }
    assert Sorting.Separating(CandidateLess, dom) by {
      forall x, y, z | x in dom && y in dom && z in dom && CandidateLess(x, z)
        ensures CandidateLess(x, y) || CandidateLess(y, z)
      {
        if !CandidateLess(x, y) && x != y {
          CandidateTriple(y, x, z);
          CandidateTriple(x, y, z);
        }
      }
    }
  }

  lemma CandidateTriple(a: Candidate, b: Candidate, c: Candidate)
    ensures !CandidateLess(a, a)
    ensures CandidateLess(a, b) && CandidateLess(b, c) ==> CandidateLess(a, c)
    ensures a != b ==> CandidateLess(a, b) || CandidateLess(b, a)
  {
    LtIrreflexive(a.raw);
    if CandidateLess(a, b) && CandidateLess(b, c) {
      LtAsymmetric(a.ingressKey, b.ingressKey);
      LtAsymmetric(a.annotation, b.annotation);
      if Lt(a.ingressKey, b.ingressKey) && Lt(b.ingressKey, c.ingressKey) {
        LtTransitive(a.ingressKey, b.ingressKey, c.ingressKey);
      }
      if Lt(a.annotation, b.annotation) && Lt(b.annotation, c.annotation) {
        LtTransitive(a.annotation, b.annotation, c.annotation);
      }
      if Lt(a.raw, b.raw) && Lt(b.raw, c.raw) {
        LtTransitive(a.raw, b.raw, c.raw);
      }
    }
    if a != b {
      if a.ingressKey != b.ingressKey {
        LtConnected(a.ingressKey, b.ingressKey);
      } else if a.annotation != b.annotation {
        LtConnected(a.annotation, b.annotation);
      } else {
        LtConnected(a.raw, b.raw);
      }
    }
  }

  /** The result, its error included, does not depend on the order of discovery. */
  lemma MergeIgnoresOrder(decode: string -> Document, cs: seq<Candidate>, ds: seq<Candidate>)
    requires multiset(cs) == multiset(ds)
    ensures Merged(decode, cs) == Merged(decode, ds)
  {
    var dom := Sorting.Elements(cs);
    Sorting.SameElements(cs, ds);
    CandidateOrder(dom);
    Sorting.SortPermutes(CandidateLess, cs);
    Sorting.SortPermutes(CandidateLess, ds);
    Sorting.SortSorts(CandidateLess, cs, dom);
    Sorting.SortSorts(CandidateLess, ds, dom);
    Sorting.SameElements(Sorting.Sort(CandidateLess, cs), cs);
    Sorting.SortedUnique(CandidateLess, Sorting.Sort(CandidateLess, cs), Sorting.Sort(CandidateLess, ds), dom);
  }

  /** Every candidate parses, to a policy below `u`. */
  ghost predicate AllBelow(decode: string -> Document, cs: seq<Candidate>, u: ExplicitPolicy) {
    forall c :: c in cs ==> Parsed(decode(c.raw)).Ok? && Below(Parsed(decode(c.raw)).value, u)
  }

  /** Candidates already seen parse, and are below what has been merged. */
  ghost predicate SeenBelow(decode: string -> Document, m: Merge) {
    (m.seen == {} <==> m.merged.None?)
    && forall c :: c in m.seen ==> Parsed(decode(c.raw)).Ok? && Below(Parsed(decode(c.raw)).value, MergedOrNone(m))
  }

  lemma MergeOneJoins(decode: string -> Document, m: Merge, c: Candidate, u: ExplicitPolicy)
    requires SeenBelow(decode, m)
    ensures Parsed(decode(c.raw)).Ok? && Below(Parsed(decode(c.raw)).value, u) && Below(MergedOrNone(m), u) ==>
      MergeOne(decode, m, c).Ok? && Below(MergedOrNone(MergeOne(decode, m, c).value), u)
    ensures MergeOne(decode, m, c).Ok? ==>
      var q := MergeOne(decode, m, c).value;
      SeenBelow(decode, q) && c in q.seen && Below(MergedOrNone(m), MergedOrNone(q))
  {
    if MergeOne(decode, m, c).Ok? && c !in m.seen {
      var q := MergeOne(decode, m, c).value;
      forall d | d in q.seen
        ensures Parsed(decode(d.raw)).Ok? && Below(Parsed(decode(d.raw)).value, MergedOrNone(q))
      {
        if d in m.seen {
          BelowTransitive(Parsed(decode(d.raw)).value, MergedOrNone(m), MergedOrNone(q));
        }
      }
    }
  }

  lemma {:induction false} MergeAllJoins(decode: string -> Document, m: Merge, cs: seq<Candidate>, u: ExplicitPolicy)
    requires SeenBelow(decode, m)
    ensures AllBelow(decode, cs, u) && Below(MergedOrNone(m), u) ==>
      MergeAll(decode, m, cs).Ok? && Below(MergedOrNone(MergeAll(decode, m, cs).value), u)
    ensures MergeAll(decode, m, cs).Ok? ==>
      var q := MergeAll(decode, m, cs).value;
      SeenBelow(decode, q) && Below(MergedOrNone(m), MergedOrNone(q))
      && m.seen <= q.seen && forall c :: c in cs ==> c in q.seen
    decreases |cs|
  {
    if cs != [] {
      assert cs == [cs[0]] + cs[1..];
      MergeOneJoins(decode, m, cs[0], u);
      if MergeOne(decode, m, cs[0]).Ok? {
        var m' := MergeOne(decode, m, cs[0]).value;
        MergeAllJoins(decode, m', cs[1..], u);
        if MergeAll(decode, m', cs[1..]).Ok? {
          BelowTransitive(MergedOrNone(m), MergedOrNone(m'), MergedOrNone(MergeAll(decode, m', cs[1..]).value));
        }
      }
    }
  }

  /** Merging succeeds when the parsed candidates have an upper bound, and then computes the
      least one; without candidates there is no policy. */
  lemma MergeIsJoin(decode: string -> Document, cs: seq<Candidate>, u: ExplicitPolicy)
    ensures AllBelow(decode, cs, u) ==> Merged(decode, cs).Ok?
    ensures Merged(decode, cs).Ok? ==>
      var m := Merged(decode, cs).value;
      (m.None? <==> cs == [])
      && (m.Some? ==> AllBelow(decode, cs, m.value) && (AllBelow(decode, cs, u) ==> Below(m.value, u)))
  {
    var sorted := Sorting.Sort(CandidateLess, cs);
    Sorting.SortPermutes(CandidateLess, cs);
    Sorting.SameElements(sorted, cs);
    MergeAllJoins(decode, NOTHING_MERGED, sorted, u);
    if cs != [] {
      assert sorted[0] in sorted;
    } else {
      assert sorted == [];
    }
  }

  /** Two policies name no field differently. */
  predicate Agree(p: ExplicitPolicy, q: ExplicitPolicy) {
    (p.cipher.Some? && q.cipher.Some? ==> p.cipher == q.cipher)
    && (p.protocols.Some? && q.protocols.Some? ==> p.protocols == q.protocols)
  }

  ghost predicate AllParseAndAgree(decode: string -> Document, cs: seq<Candidate>) {
    (forall c :: c in cs ==> Parsed(decode(c.raw)).Ok?)
    && forall c, d :: c in cs && d in cs ==> Agree(Parsed(decode(c.raw)).value, Parsed(decode(d.raw)).value)
  }

  /** Merging succeeds exactly when all candidates parse and no two disagree on a field. */
  lemma MergeSucceedsIff(decode: string -> Document, cs: seq<Candidate>)
    ensures Merged(decode, cs).Ok? <==> AllParseAndAgree(decode, cs)
  {
    if AllParseAndAgree(decode, cs) {
      var cipher, protocols := None, None;
      if c :| c in cs && Parsed(decode(c.raw)).value.cipher.Some? {
        cipher := Parsed(decode(c.raw)).value.cipher;
      }
      if c :| c in cs && Parsed(decode(c.raw)).value.protocols.Some? {
        protocols := Parsed(decode(c.raw)).value.protocols;
      }
      MergeIsJoin(decode, cs, ExplicitPolicy(cipher, protocols));
    } else {
      MergeIsJoin(decode, cs, NO_POLICY);
      if Merged(decode, cs).Ok? && cs != [] {
        forall c, d | c in cs && d in cs
          ensures Agree(Parsed(decode(c.raw)).value, Parsed(decode(d.raw)).value)
        {
        }
      }
    }
  }

  /** Every field of the least upper bound was stated by some candidate. */
  lemma MergedIsRequestable(decode: string -> Document, cs: seq<Candidate>)
    requires Merged(decode, cs).Ok? && Merged(decode, cs).value.Some?
    ensures Requestable(Merged(decode, cs).value.value)
  {
    var sorted := Sorting.Sort(CandidateLess, cs);
    MergeAllRequestable(decode, NOTHING_MERGED, sorted);
  }

  lemma {:induction false} MergeAllRequestable(decode: string -> Document, m: Merge, cs: seq<Candidate>)
    requires Requestable(MergedOrNone(m)) && MergeAll(decode, m, cs).Ok?
    ensures Requestable(MergedOrNone(MergeAll(decode, m, cs).value))
    decreases |cs|
  {
    if cs != [] {
      var doc := decode(cs[0].raw);
      if Parsed(doc).Ok? {
        AddFieldsRequestable(NO_POLICY, doc.fields);
      }
      MergeAllRequestable(decode, MergeOne(decode, m, cs[0]).value, cs[1..]);
    }
  }

  // ---- Resolution ------------------------------------------------------------------------

  const HTTP2_CIPHER := "oci-default-http2-tls-12-13-ssl-cipher-suite-v1"
  const HTTP2_TLS12_CIPHER := "oci-default-http2-ssl-cipher-suite-v1"
  const HTTP2_TLS13_CIPHER := "oci-default-http2-tls-13-ssl-cipher-suite-v1"
  const LISTENER_CIPHER := "oci-tls-12-13-ssl-cipher-suite-v3"
  const LISTENER_TLS12_CIPHER := "oci-tls-12-ssl-cipher-suite-v3"
  const LISTENER_TLS13_CIPHER := "oci-tls-13-ssl-cipher-suite-v3"

  /** The resource a policy is resolved for; listeners of the HTTP/2 family have their own suites. */
  datatype Resource = ListenerResource(http2Family: bool) | BackendSetResource

  datatype Policy = Policy(cipher: string, protocols: seq<string>)

  function LockedDefault(resource: Resource): Policy {
    if resource == ListenerResource(false) then Policy(LISTENER_CIPHER, [TLS12, TLS13])
    else Policy(HTTP2_CIPHER, [TLS12, TLS13])
  }

  function Join(parts: seq<string>): string {
    if parts == [] then "" else if |parts| == 1 then parts[0] else parts[0] + "," + Join(parts[1..])
  }

  function ProtocolKey(protocols: seq<string>): string {
    Join(Sorting.Sort(Lt, protocols))
  }

  function CompatibleSuites(resource: Resource): map<string, string> {
    if resource == ListenerResource(false) then
      map[TLS12 + "," + TLS13 := LISTENER_CIPHER, TLS13 := LISTENER_TLS13_CIPHER, TLS12 := LISTENER_TLS12_CIPHER]
    else
      map[TLS12 + "," + TLS13 := HTTP2_CIPHER, TLS13 := HTTP2_TLS13_CIPHER, TLS12 := HTTP2_TLS12_CIPHER]
  }

  datatype ResolveError = UnsupportedProtocolsOnly(protocols: seq<string>) | NotRequestable

  function Overlay(resource: Resource, p: ExplicitPolicy): Result<Policy, ResolveError> {
    var fallback := LockedDefault(resource);
    var protocols := if p.protocols.Some? then p.protocols.value else fallback.protocols;
    if p.cipher.Some? then Ok(Policy(p.cipher.value, protocols))
    else if p.protocols.None? then Ok(fallback)
    else if ProtocolKey(protocols) in CompatibleSuites(resource) then
      Ok(Policy(CompatibleSuites(resource)[ProtocolKey(protocols)], protocols))
    else Err(UnsupportedProtocolsOnly(protocols))
  }

  lemma KnownProtocolKeys()
    ensures ProtocolKey([TLS12]) == TLS12
    ensures ProtocolKey([TLS13]) == TLS13
    ensures ProtocolKey([TLS12, TLS13]) == TLS12 + "," + TLS13
  {
    SortSingleton(TLS12);
    SortSingleton(TLS13);
    var t := "TLSv1.";
    assert TLS12 == t + "2" && TLS13 == t + "3";
    LtCommonPrefix(t, "3", "2");
    var s := [TLS12, TLS13];
    assert s[1..] == [TLS13];
    assert Sorting.Sort(Lt, s) == Sorting.Insert(Lt, TLS12, [TLS13]);
    assert !Lt(TLS13, TLS12);
    assert Sorting.Sort(Lt, s) == [TLS12] + [TLS13];
    assert ([TLS12] + [TLS13])[1..] == [TLS13];
  }

  lemma SortSingleton(s: string)
    ensures Sorting.Sort(Lt, [s]) == [s]
  {
    assert [s][1..] == [];
    assert Sorting.Sort(Lt, [s]) == Sorting.Insert(Lt, s, []);
  }

  lemma {:induction false} LtCommonPrefix(prefix: string, a: string, b: string)
    ensures Lt(prefix + a, prefix + b) == Lt(a, b)
  {
    if prefix == [] {
      assert prefix + a == a && prefix + b == b;
    } else {
      assert (prefix + a)[1..] == prefix[1..] + a && (prefix + b)[1..] == prefix[1..] + b;
      LtCommonPrefix(prefix[1..], a, b);
    }
  }

  lemma SuiteNamesDiffer(resource: Resource, key: string)
    requires key in CompatibleSuites(resource)
    ensures CompatibleSuites(resource)[key] != CUSTOMIZED_CIPHER && LockedDefault(resource).cipher != CUSTOMIZED_CIPHER
  {
    assert CUSTOMIZED_CIPHER[4] == 'c';
    assert HTTP2_CIPHER[4] == HTTP2_TLS12_CIPHER[4] == HTTP2_TLS13_CIPHER[4] == 'd';
    assert LISTENER_CIPHER[4] == LISTENER_TLS12_CIPHER[4] == LISTENER_TLS13_CIPHER[4] == 't';
  }

  lemma SuitesAreKnown(resource: Resource, protocols: seq<string>)
    requires protocols in {[TLS12], [TLS13], [TLS12, TLS13]}
    ensures ProtocolKey(protocols) in CompatibleSuites(resource)
  {
    KnownProtocolKeys();
  }

  /** A requestable policy always resolves, keeps what it states, and never asks for the
      read-only suite. */
  lemma RequestableResolves(resource: Resource, p: ExplicitPolicy)
    requires Requestable(p)
    ensures Overlay(resource, p).Ok?
    ensures Below(p, ExplicitPolicy(Some(Overlay(resource, p).value.cipher), Some(Overlay(resource, p).value.protocols)))
    ensures Overlay(resource, p).value.cipher != CUSTOMIZED_CIPHER
    ensures Overlay(resource, p).value.protocols in {[TLS12], [TLS13], [TLS12, TLS13]}
  {
    var protocols := if p.protocols.Some? then p.protocols.value else [TLS12, TLS13];
    SuitesAreKnown(resource, protocols);
    SuiteNamesDiffer(resource, ProtocolKey(protocols));
  }

  /** No policy that survives the merge can hit the "no confirmed safe default" error. */
  lemma MergedPoliciesResolve(decode: string -> Document, cs: seq<Candidate>, resource: Resource)
    requires Merged(decode, cs).Ok? && Merged(decode, cs).value.Some?
    ensures Overlay(resource, Merged(decode, cs).value.value).Ok?
    ensures forall c :: c in cs ==>
      var p := Overlay(resource, Merged(decode, cs).value.value).value;
      Parsed(decode(c.raw)).Ok?
      && Below(Parsed(decode(c.raw)).value, ExplicitPolicy(Some(p.cipher), Some(p.protocols)))
  {
    MergedIsRequestable(decode, cs);
    var m := Merged(decode, cs).value.value;
    RequestableResolves(resource, m);
    MergeIsJoin(decode, cs, m);
    var p := Overlay(resource, m).value;
    forall c | c in cs
      ensures Below(Parsed(decode(c.raw)).value, ExplicitPolicy(Some(p.cipher), Some(p.protocols)))
    {
      BelowTransitive(Parsed(decode(c.raw)).value, m, ExplicitPolicy(Some(p.cipher), Some(p.protocols)));
    }
  }
}
