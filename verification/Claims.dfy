/**
  The attribution request claim: its builder's defaults and checks, the row it is inserted as,
  and how a row is read back.
 */
module Claims {
  import opened Results

  /** Instants count from Go's zero time. */
  type Time = int

  const ZERO_TIME: Time := 0

  datatype Column =
    | ID
    | ClaimGroupID
    | RelayProviderID
    | RequestID
    | CanonicalDigest
    | Status
    | AttemptCount
    | NextAttemptAt
    | LeaseToken
    | LeaseExpiresAt
    | LastErrorCode
    | RequestedModel
    | UsageAt
    | InputTokens
    | OutputTokens
    | CacheCreationTokens
    | CacheReadTokens
    | TotalTokens
    | ReconciledAt
    | MaterializedPoolID
    | MaterializedAt
    | ExpiresAt
    | CreatedAt
    | UpdatedAt
    | Other(name: string)

  /** A value in the database. */
  datatype Cell = Null | IntCell(number: int) | TextCell(text: string) | TimeCell(time: Time)

  /** The entity; an optional nillable field is a pointer, and an unknown column goes to `selectValues`. */
  datatype Claim = Claim(
    id: int,
    claimGroupID: int,
    relayProviderID: int,
    requestID: string,
    canonicalDigest: string,
    status: string,
    attemptCount: int,
    nextAttemptAt: Time,
    leaseToken: string,
    leaseExpiresAt: Option<Time>,
    lastErrorCode: string,
    requestedModel: string,
    usageAt: Option<Time>,
    inputTokens: int,
    outputTokens: int,
    cacheCreationTokens: int,
    cacheReadTokens: int,
    totalTokens: int,
    reconciledAt: Option<Time>,
    materializedPoolID: Option<int>,
    materializedAt: Option<Time>,
    expiresAt: Time,
    createdAt: Time,
    updatedAt: Time,
    selectValues: map<string, Holder>)

  const ZERO_CLAIM := Claim(
    0, 0, 0, "", "", "", 0, ZERO_TIME, "", None, "", "", None, 0, 0, 0, 0, 0, None, None, None, ZERO_TIME, ZERO_TIME, ZERO_TIME, map[])

  /** What a builder has been told to set. */
  datatype Mutation = Mutation(
    claimGroupID: Option<int>,
    relayProviderID: Option<int>,
    requestID: Option<string>,
    canonicalDigest: Option<string>,
    status: Option<string>,
    attemptCount: Option<int>,
    nextAttemptAt: Option<Time>,
    leaseToken: Option<string>,
    leaseExpiresAt: Option<Time>,
    lastErrorCode: Option<string>,
    requestedModel: Option<string>,
    usageAt: Option<Time>,
    inputTokens: Option<int>,
    outputTokens: Option<int>,
    cacheCreationTokens: Option<int>,
    cacheReadTokens: Option<int>,
    totalTokens: Option<int>,
    reconciledAt: Option<Time>,
    materializedPoolID: Option<int>,
    materializedAt: Option<Time>,
    expiresAt: Option<Time>,
    createdAt: Option<Time>,
    updatedAt: Option<Time>)

  // ---------------------------------------------------------------- defaults and checks

  const DEFAULT_STATUS := "pending"

  predicate ValidStatus(s: string) {
    || s == DEFAULT_STATUS
    || s in {"reconciled", "owner_mismatch", "ambiguous", "provider_unavailable", "invalid_usage", "source_expired"}
  }

  /** The instants the time defaults read off the clock. */
  datatype Clock = Clock(nextAttemptAt: Time, createdAt: Time, updatedAt: Time)

  function OrElse<T>(value: Option<T>, default: T): Option<T> {
    if value.Some? then value else Some(default)
  }

  function WithDefaults(m: Mutation, clock: Clock): Mutation {
    m.(
      status := OrElse(m.status, DEFAULT_STATUS),
      attemptCount := OrElse(m.attemptCount, 0),
      nextAttemptAt := OrElse(m.nextAttemptAt, clock.nextAttemptAt),
      inputTokens := OrElse(m.inputTokens, 0),
      outputTokens := OrElse(m.outputTokens, 0),
      cacheCreationTokens := OrElse(m.cacheCreationTokens, 0),
      cacheReadTokens := OrElse(m.cacheReadTokens, 0),
      totalTokens := OrElse(m.totalTokens, 0),
      createdAt := OrElse(m.createdAt, clock.createdAt),
      updatedAt := OrElse(m.updatedAt, clock.updatedAt))
  }

  datatype ValidationError = Missing(column: Column) | Invalid(column: Column)

  /** The first check that fails, in the order of the fields. */
  function Check(m: Mutation): Option<ValidationError> {
    if m.claimGroupID.None? then Some(Missing(ClaimGroupID)) else
    if m.relayProviderID.None? then Some(Missing(RelayProviderID)) else
    if m.requestID.None? then Some(Missing(RequestID)) else
    if m.requestID.value == "" then Some(Invalid(RequestID)) else
    if m.canonicalDigest.None? then Some(Missing(CanonicalDigest)) else
    if m.canonicalDigest.value == "" then Some(Invalid(CanonicalDigest)) else
    if m.status.None? then Some(Missing(Status)) else
    if !ValidStatus(m.status.value) then Some(Invalid(Status)) else
    if m.attemptCount.None? then Some(Missing(AttemptCount)) else
    if m.nextAttemptAt.None? then Some(Missing(NextAttemptAt)) else
    if m.inputTokens.None? then Some(Missing(InputTokens)) else
    if m.outputTokens.None? then Some(Missing(OutputTokens)) else
    if m.cacheCreationTokens.None? then Some(Missing(CacheCreationTokens)) else
    if m.cacheReadTokens.None? then Some(Missing(CacheReadTokens)) else
    if m.totalTokens.None? then Some(Missing(TotalTokens)) else
    if m.expiresAt.None? then Some(Missing(ExpiresAt)) else
    if m.createdAt.None? then Some(Missing(CreatedAt)) else
    if m.updatedAt.None? then Some(Missing(UpdatedAt)) else
    None
  }

  // Once the defaults are in, the checks pass exactly when the five fields without a default
  // are set and the three validators accept.
  lemma ChecksAfterDefaults(m: Mutation, clock: Clock)
    ensures Check(WithDefaults(m, clock)).None? <==>
            && m.claimGroupID.Some? && m.relayProviderID.Some? && m.requestID.Some?
            && m.canonicalDigest.Some? && m.expiresAt.Some?
            && m.requestID.value != "" && m.canonicalDigest.value != ""
            && (m.status.Some? ==>
                  m.status.value in {
                    "pending", "reconciled", "owner_mismatch", "ambiguous", "provider_unavailable", "invalid_usage",
                    "source_expired"})
  {
  }


  // What the defaults are, and that only what has one is filled in.
  lemma DefaultValues(m: Mutation, clock: Clock)
    ensures var d := WithDefaults(m, clock);
            && d.claimGroupID == m.claimGroupID
            && d.relayProviderID == m.relayProviderID
            && d.requestID == m.requestID
            && d.canonicalDigest == m.canonicalDigest
            && d.status == (if m.status.Some? then m.status else Some("pending"))
            && d.attemptCount == (if m.attemptCount.Some? then m.attemptCount else Some(0))
            && d.nextAttemptAt == (if m.nextAttemptAt.Some? then m.nextAttemptAt else Some(clock.nextAttemptAt))
            && d.leaseToken == m.leaseToken
            && d.leaseExpiresAt == m.leaseExpiresAt
            && d.lastErrorCode == m.lastErrorCode
            && d.requestedModel == m.requestedModel
            && d.usageAt == m.usageAt
            && d.inputTokens == (if m.inputTokens.Some? then m.inputTokens else Some(0))
            && d.outputTokens == (if m.outputTokens.Some? then m.outputTokens else Some(0))
            && d.cacheCreationTokens == (if m.cacheCreationTokens.Some? then m.cacheCreationTokens else Some(0))
            && d.cacheReadTokens == (if m.cacheReadTokens.Some? then m.cacheReadTokens else Some(0))
            && d.totalTokens == (if m.totalTokens.Some? then m.totalTokens else Some(0))
            && d.reconciledAt == m.reconciledAt
            && d.materializedPoolID == m.materializedPoolID
            && d.materializedAt == m.materializedAt
            && d.expiresAt == m.expiresAt
            && d.createdAt == (if m.createdAt.Some? then m.createdAt else Some(clock.createdAt))
            && d.updatedAt == (if m.updatedAt.Some? then m.updatedAt else Some(clock.updatedAt))
  {
  }

  /** Where a column comes in the order of the checks; none for one that is not required. */
  function Position(c: Column): Option<nat> {
    match c
    case ClaimGroupID => Some(0)
    case RelayProviderID => Some(1)
    case RequestID => Some(2)
    case CanonicalDigest => Some(3)
    case Status => Some(4)
    case AttemptCount => Some(5)
    case NextAttemptAt => Some(6)
    case InputTokens => Some(7)
    case OutputTokens => Some(8)
    case CacheCreationTokens => Some(9)
    case CacheReadTokens => Some(10)
    case TotalTokens => Some(11)
    case ExpiresAt => Some(12)
    case CreatedAt => Some(13)
    case UpdatedAt => Some(14)
    case _ => None
  }

  /** A required column is set. */
  predicate IsSet(m: Mutation, c: Column) {
    match c
    case ClaimGroupID => m.claimGroupID.Some?
    case RelayProviderID => m.relayProviderID.Some?
    case RequestID => m.requestID.Some?
    case CanonicalDigest => m.canonicalDigest.Some?
    case Status => m.status.Some?
    case AttemptCount => m.attemptCount.Some?
    case NextAttemptAt => m.nextAttemptAt.Some?
    case InputTokens => m.inputTokens.Some?
    case OutputTokens => m.outputTokens.Some?
    case CacheCreationTokens => m.cacheCreationTokens.Some?
    case CacheReadTokens => m.cacheReadTokens.Some?
    case TotalTokens => m.totalTokens.Some?
    case ExpiresAt => m.expiresAt.Some?
    case CreatedAt => m.createdAt.Some?
    case UpdatedAt => m.updatedAt.Some?
    case _ => true
  }

  /** It is set, and to a value its validator accepts. */
  predicate Passes(m: Mutation, c: Column) {
    && IsSet(m, c)
    && match c
       case RequestID => m.requestID.value != ""
       case CanonicalDigest => m.canonicalDigest.value != ""
       case Status => ValidStatus(m.status.value)
       case _ => true
  }

  // The checks name the first required column that does not pass, and say whether it is
  // missing or not valid.
  lemma CheckMeaning(m: Mutation)
    ensures Check(m).None? <==> forall c: Column :: Passes(m, c)
    ensures Check(m).Some? ==>
              var c := Check(m).value.column;
              && !Passes(m, c) && Check(m).value == (if IsSet(m, c) then Invalid(c) else Missing(c))
              && Position(c).Some?
              && forall d: Column :: Position(d).Some? && Position(d).value < Position(c).value ==> Passes(m, d)
  {
    if Check(m).Some? {
      assert !Passes(m, Check(m).value.column);
    }
  }


  // Defaults fill what is missing, change nothing that is set, and need to run only once.
  lemma DefaultsFillOnce(m: Mutation, first: Clock, second: Clock, c: Column)
    ensures WithDefaults(WithDefaults(m, first), second) == WithDefaults(m, first)
    ensures SpecCell(m, c).Some? ==> SpecCell(WithDefaults(m, first), c) == SpecCell(m, c)
  {
  }

  // ---------------------------------------------------------------- create

  /** What the insert writes into a column, if it mentions the column at all. */
  function SpecCell(m: Mutation, c: Column): Option<Cell> {
    match c
    case ID => None
    case Other(_) => None
    case ClaimGroupID => if m.claimGroupID.Some? then Some(IntCell(m.claimGroupID.value)) else None
    case RelayProviderID => if m.relayProviderID.Some? then Some(IntCell(m.relayProviderID.value)) else None
    case RequestID => if m.requestID.Some? then Some(TextCell(m.requestID.value)) else None
    case CanonicalDigest => if m.canonicalDigest.Some? then Some(TextCell(m.canonicalDigest.value)) else None
    case Status => if m.status.Some? then Some(TextCell(m.status.value)) else None
    case AttemptCount => if m.attemptCount.Some? then Some(IntCell(m.attemptCount.value)) else None
    case NextAttemptAt => if m.nextAttemptAt.Some? then Some(TimeCell(m.nextAttemptAt.value)) else None
    case LeaseToken => if m.leaseToken.Some? then Some(TextCell(m.leaseToken.value)) else None
    case LeaseExpiresAt => if m.leaseExpiresAt.Some? then Some(TimeCell(m.leaseExpiresAt.value)) else None
    case LastErrorCode => if m.lastErrorCode.Some? then Some(TextCell(m.lastErrorCode.value)) else None
    case RequestedModel => if m.requestedModel.Some? then Some(TextCell(m.requestedModel.value)) else None
    case UsageAt => if m.usageAt.Some? then Some(TimeCell(m.usageAt.value)) else None
    case InputTokens => if m.inputTokens.Some? then Some(IntCell(m.inputTokens.value)) else None
    case OutputTokens => if m.outputTokens.Some? then Some(IntCell(m.outputTokens.value)) else None
    case CacheCreationTokens => if m.cacheCreationTokens.Some? then Some(IntCell(m.cacheCreationTokens.value)) else None
    case CacheReadTokens => if m.cacheReadTokens.Some? then Some(IntCell(m.cacheReadTokens.value)) else None
    case TotalTokens => if m.totalTokens.Some? then Some(IntCell(m.totalTokens.value)) else None
    case ReconciledAt => if m.reconciledAt.Some? then Some(TimeCell(m.reconciledAt.value)) else None
    case MaterializedPoolID => if m.materializedPoolID.Some? then Some(IntCell(m.materializedPoolID.value)) else None
    case MaterializedAt => if m.materializedAt.Some? then Some(TimeCell(m.materializedAt.value)) else None
    case ExpiresAt => if m.expiresAt.Some? then Some(TimeCell(m.expiresAt.value)) else None
    case CreatedAt => if m.createdAt.Some? then Some(TimeCell(m.createdAt.value)) else None
    case UpdatedAt => if m.updatedAt.Some? then Some(TimeCell(m.updatedAt.value)) else None
  }

  /** The node createSpec builds, before the database gives it an id. */
  function NodeOf(m: Mutation): Claim {
    Claim(
      0,
      if m.claimGroupID.Some? then m.claimGroupID.value else 0,
      if m.relayProviderID.Some? then m.relayProviderID.value else 0,
      if m.requestID.Some? then m.requestID.value else "",
      if m.canonicalDigest.Some? then m.canonicalDigest.value else "",
      if m.status.Some? then m.status.value else "",
      if m.attemptCount.Some? then m.attemptCount.value else 0,
      if m.nextAttemptAt.Some? then m.nextAttemptAt.value else ZERO_TIME,
      if m.leaseToken.Some? then m.leaseToken.value else "",
      m.leaseExpiresAt,
      if m.lastErrorCode.Some? then m.lastErrorCode.value else "",
      if m.requestedModel.Some? then m.requestedModel.value else "",
      m.usageAt,
      if m.inputTokens.Some? then m.inputTokens.value else 0,
      if m.outputTokens.Some? then m.outputTokens.value else 0,
      if m.cacheCreationTokens.Some? then m.cacheCreationTokens.value else 0,
      if m.cacheReadTokens.Some? then m.cacheReadTokens.value else 0,
      if m.totalTokens.Some? then m.totalTokens.value else 0,
      m.reconciledAt,
      m.materializedPoolID,
      m.materializedAt,
      if m.expiresAt.Some? then m.expiresAt.value else ZERO_TIME,
      if m.createdAt.Some? then m.createdAt.value else ZERO_TIME,
      if m.updatedAt.Some? then m.updatedAt.value else ZERO_TIME,
      map[])
  }

  /** A column of the row that was inserted: what the insert left out is NULL. */
  function StoredCell(m: Mutation, id: int, extra: string -> Cell, c: Column): Cell {
    match c
    case ID => IntCell(id)
    case Other(name) => extra(name)
    case _ => if SpecCell(m, c).Some? then SpecCell(m, c).value else Null
  }

  // ---------------------------------------------------------------- read

  /** The holder a column is scanned into. */
  datatype Holder =
    | NullInt64(int64: int, valid: bool)
    | NullString(text: string, valid: bool)
    | NullTime(time: Time, valid: bool)
    | UnknownType(cell: Cell)

  datatype ReadError = TypeMismatch(column: Column) | TooFewValues

  datatype Kind = KindInt64 | KindString | KindTime | KindUnknown

  function KindOf(c: Column): Kind {
    match c
    case Other(_) => KindUnknown
    case ID => KindInt64
    case ClaimGroupID => KindInt64
    case RelayProviderID => KindInt64
    case RequestID => KindString
    case CanonicalDigest => KindString
    case Status => KindString
    case AttemptCount => KindInt64
    case NextAttemptAt => KindTime
    case LeaseToken => KindString
    case LeaseExpiresAt => KindTime
    case LastErrorCode => KindString
    case RequestedModel => KindString
    case UsageAt => KindTime
    case InputTokens => KindInt64
    case OutputTokens => KindInt64
    case CacheCreationTokens => KindInt64
    case CacheReadTokens => KindInt64
    case TotalTokens => KindInt64
    case ReconciledAt => KindTime
    case MaterializedPoolID => KindInt64
    case MaterializedAt => KindTime
    case ExpiresAt => KindTime
    case CreatedAt => KindTime
    case UpdatedAt => KindTime
  }

  /** scanValues: one empty holder for every column. */
  method ScanValues(columns: seq<Column>) returns (kinds: array<Kind>)
    ensures fresh(kinds) && kinds.Length == |columns|
    ensures forall i :: 0 <= i < |columns| ==> kinds[i] == KindOf(columns[i])
  {
    kinds := new Kind[|columns|];
    for i := 0 to |columns|
      invariant forall j :: 0 <= j < i ==> kinds[j] == KindOf(columns[j])
    {
      kinds[i] := KindOf(columns[i]);
    }
  }

  /** Scanning a database value into a holder; a value of another type is an error of the driver. */
  function Scan(kind: Kind, cell: Cell): Option<Holder> {
    match (kind, cell)
    case (KindUnknown, _) => Some(UnknownType(cell))
    case (KindInt64, Null) => Some(NullInt64(0, false))
    case (KindInt64, IntCell(i)) => Some(NullInt64(i, true))
    case (KindString, Null) => Some(NullString("", false))
    case (KindString, TextCell(s)) => Some(NullString(s, true))
    case (KindTime, Null) => Some(NullTime(ZERO_TIME, false))
    case (KindTime, TimeCell(t)) => Some(NullTime(t, true))
    case _ => None
  }

  /** One round of the loop of assignValues. */
  function AssignField(claim: Claim, c: Column, h: Holder): Result<Claim, ReadError> {
    match c
    case Other(name) => Ok(claim.(selectValues := claim.selectValues[name := h]))
    case ID =>
      if h.NullInt64? then Ok(claim.(id := h.int64)) else Err(TypeMismatch(c))
    case ClaimGroupID =>
      if !h.NullInt64? then Err(TypeMismatch(c)) else if h.valid then Ok(claim.(claimGroupID := h.int64)) else Ok(claim)
    case RelayProviderID =>
      if !h.NullInt64? then Err(TypeMismatch(c)) else if h.valid then Ok(claim.(relayProviderID := h.int64)) else Ok(claim)
    case RequestID =>
      if !h.NullString? then Err(TypeMismatch(c)) else if h.valid then Ok(claim.(requestID := h.text)) else Ok(claim)
    case CanonicalDigest =>
      if !h.NullString? then Err(TypeMismatch(c)) else if h.valid then Ok(claim.(canonicalDigest := h.text)) else Ok(claim)
    case Status =>
      if !h.NullString? then Err(TypeMismatch(c)) else if h.valid then Ok(claim.(status := h.text)) else Ok(claim)
    case AttemptCount =>
      if !h.NullInt64? then Err(TypeMismatch(c)) else if h.valid then Ok(claim.(attemptCount := h.int64)) else Ok(claim)
    case NextAttemptAt =>
      if !h.NullTime? then Err(TypeMismatch(c)) else if h.valid then Ok(claim.(nextAttemptAt := h.time)) else Ok(claim)
    case LeaseToken =>
      if !h.NullString? then Err(TypeMismatch(c)) else if h.valid then Ok(claim.(leaseToken := h.text)) else Ok(claim)
    case LeaseExpiresAt =>
      if !h.NullTime? then Err(TypeMismatch(c)) else if h.valid then Ok(claim.(leaseExpiresAt := Some(h.time))) else Ok(claim)
    case LastErrorCode =>
      if !h.NullString? then Err(TypeMismatch(c)) else if h.valid then Ok(claim.(lastErrorCode := h.text)) else Ok(claim)
    case RequestedModel =>
      if !h.NullString? then Err(TypeMismatch(c)) else if h.valid then Ok(claim.(requestedModel := h.text)) else Ok(claim)
    case UsageAt =>
      if !h.NullTime? then Err(TypeMismatch(c)) else if h.valid then Ok(claim.(usageAt := Some(h.time))) else Ok(claim)
    case InputTokens =>
      if !h.NullInt64? then Err(TypeMismatch(c)) else if h.valid then Ok(claim.(inputTokens := h.int64)) else Ok(claim)
    case OutputTokens =>
      if !h.NullInt64? then Err(TypeMismatch(c)) else if h.valid then Ok(claim.(outputTokens := h.int64)) else Ok(claim)
    case CacheCreationTokens =>
      if !h.NullInt64? then Err(TypeMismatch(c)) else if h.valid then Ok(claim.(cacheCreationTokens := h.int64)) else Ok(claim)
    case CacheReadTokens =>
      if !h.NullInt64? then Err(TypeMismatch(c)) else if h.valid then Ok(claim.(cacheReadTokens := h.int64)) else Ok(claim)
    case TotalTokens =>
      if !h.NullInt64? then Err(TypeMismatch(c)) else if h.valid then Ok(claim.(totalTokens := h.int64)) else Ok(claim)
    case ReconciledAt =>
      if !h.NullTime? then Err(TypeMismatch(c)) else if h.valid then Ok(claim.(reconciledAt := Some(h.time))) else Ok(claim)
    case MaterializedPoolID =>
      if !h.NullInt64? then Err(TypeMismatch(c)) else if h.valid then Ok(claim.(materializedPoolID := Some(h.int64))) else Ok(claim)
    case MaterializedAt =>
      if !h.NullTime? then Err(TypeMismatch(c)) else if h.valid then Ok(claim.(materializedAt := Some(h.time))) else Ok(claim)
    case ExpiresAt =>
      if !h.NullTime? then Err(TypeMismatch(c)) else if h.valid then Ok(claim.(expiresAt := h.time)) else Ok(claim)
    case CreatedAt =>
      if !h.NullTime? then Err(TypeMismatch(c)) else if h.valid then Ok(claim.(createdAt := h.time)) else Ok(claim)
    case UpdatedAt =>
      if !h.NullTime? then Err(TypeMismatch(c)) else if h.valid then Ok(claim.(updatedAt := h.time)) else Ok(claim)
  }

  /** What assignValues leaves of an entity, and whether it failed on the way. */
  datatype Assigned = Assigned(claim: Claim, error: Option<ReadError>)

  function AssignFields(claim: Claim, columns: seq<Column>, values: seq<Holder>): Assigned
    requires |columns| <= |values|
  {
    if columns == [] then Assigned(claim, None)
    else
      var n := |columns| - 1;
      var before := AssignFields(claim, columns[..n], values);
      if before.error.Some? then before
      else
        var next := AssignField(before.claim, columns[n], values[n]);
        if next.Ok? then Assigned(next.value, None) else Assigned(before.claim, Some(next.error))
  }

  class ClaimNode {
    var claim: Claim

    constructor ()
      ensures claim == ZERO_CLAIM
    {
      claim := ZERO_CLAIM;
    }

    method AssignValues(columns: seq<Column>, values: seq<Holder>) returns (error: Option<ReadError>)
      modifies this
      ensures |values| < |columns| ==> error == Some(TooFewValues) && claim == old(claim)
      ensures |columns| <= |values| ==> Assigned(claim, error) == AssignFields(old(claim), columns, values)
    {
      if |values| < |columns| {
        return Some(TooFewValues);
      }
      for i := 0 to |columns|
        invariant AssignFields(old(claim), columns[..i], values) == Assigned(claim, None)
      {
        assert columns[..i + 1][..i] == columns[..i];
        var next := AssignField(claim, columns[i], values[i]);
        if next.Err? {
          FailureStays(old(claim), columns, values, i + 1);
          return Some(next.error);
        }
        claim := next.value;
      }
      assert columns[..|columns|] == columns;
      return None;
    }
  }

  lemma {:induction false} FailureStays(claim: Claim, columns: seq<Column>, values: seq<Holder>, i: nat)
    requires i <= |columns| <= |values|
    requires AssignFields(claim, columns[..i], values).error.Some?
    ensures AssignFields(claim, columns, values) == AssignFields(claim, columns[..i], values)
    decreases |columns|
  {
    if i < |columns| {
      var n := |columns| - 1;
      assert columns[..n][..i] == columns[..i];
      FailureStays(claim, columns[..n], values, i);
    } else {
      assert columns[..i] == columns;
    }
  }

  function HolderKind(h: Holder): Kind {
    match h
    case NullInt64(_, _) => KindInt64
    case NullString(_, _) => KindString
    case NullTime(_, _) => KindTime
    case UnknownType(_) => KindUnknown
  }

  /** A holder the column can be read from; an unknown column is kept as it is. */
  predicate Fits(c: Column, h: Holder) {
    c.Other? || HolderKind(h) == KindOf(c)
  }

  lemma FieldFits(claim: Claim, c: Column, h: Holder)
    ensures AssignField(claim, c, h).Ok? <==> Fits(c, h)
    ensures AssignField(claim, c, h).Err? ==> AssignField(claim, c, h).error == TypeMismatch(c)
  {
  }

  // Assigning fails exactly when some holder does not fit, and names the first such column.
  lemma {:induction false} FirstMismatch(claim: Claim, columns: seq<Column>, values: seq<Holder>)
    requires |columns| <= |values|
    ensures AssignFields(claim, columns, values).error.None? <==>
            forall i :: 0 <= i < |columns| ==> Fits(columns[i], values[i])
    ensures var e := AssignFields(claim, columns, values).error;
            e.Some? ==>
              exists i :: 0 <= i < |columns| && !Fits(columns[i], values[i]) &&
                (forall j :: 0 <= j < i ==> Fits(columns[j], values[j])) && e.value == TypeMismatch(columns[i])
  {
    if columns != [] {
      var n := |columns| - 1;
      FirstMismatch(claim, columns[..n], values);
      var before := AssignFields(claim, columns[..n], values);
      if before.error.Some? {
        var i :| 0 <= i < n && !Fits(columns[..n][i], values[i]) &&
          (forall j :: 0 <= j < i ==> Fits(columns[..n][j], values[j])) && before.error.value == TypeMismatch(columns[..n][i]);
        assert !Fits(columns[i], values[i]);
        forall j | 0 <= j < i
          ensures Fits(columns[j], values[j])
        {
          assert Fits(columns[..n][j], values[j]);
        }
      } else {
        forall j | 0 <= j < n
          ensures Fits(columns[j], values[j])
        {
          assert Fits(columns[..n][j], values[j]);
        }
        FieldFits(before.claim, columns[n], values[n]);
      }
    }
  }

  // ---------------------------------------------------------------- create, then read

  /** What a holder holds. */
  function HeldCell(h: Holder): Cell {
    match h
    case UnknownType(cell) => cell
    case NullInt64(i, valid) => if valid then IntCell(i) else Null
    case NullString(s, valid) => if valid then TextCell(s) else Null
    case NullTime(t, valid) => if valid then TimeCell(t) else Null
  }

  /** One column of an entity. */
  function FieldCell(claim: Claim, c: Column): Cell {
    match c
    case ID => IntCell(claim.id)
    case Other(name) => if name in claim.selectValues then HeldCell(claim.selectValues[name]) else Null
    case ClaimGroupID => IntCell(claim.claimGroupID)
    case RelayProviderID => IntCell(claim.relayProviderID)
    case RequestID => TextCell(claim.requestID)
    case CanonicalDigest => TextCell(claim.canonicalDigest)
    case Status => TextCell(claim.status)
    case AttemptCount => IntCell(claim.attemptCount)
    case NextAttemptAt => TimeCell(claim.nextAttemptAt)
    case LeaseToken => TextCell(claim.leaseToken)
    case LeaseExpiresAt => if claim.leaseExpiresAt.Some? then TimeCell(claim.leaseExpiresAt.value) else Null
    case LastErrorCode => TextCell(claim.lastErrorCode)
    case RequestedModel => TextCell(claim.requestedModel)
    case UsageAt => if claim.usageAt.Some? then TimeCell(claim.usageAt.value) else Null
    case InputTokens => IntCell(claim.inputTokens)
    case OutputTokens => IntCell(claim.outputTokens)
    case CacheCreationTokens => IntCell(claim.cacheCreationTokens)
    case CacheReadTokens => IntCell(claim.cacheReadTokens)
    case TotalTokens => IntCell(claim.totalTokens)
    case ReconciledAt => if claim.reconciledAt.Some? then TimeCell(claim.reconciledAt.value) else Null
    case MaterializedPoolID => if claim.materializedPoolID.Some? then IntCell(claim.materializedPoolID.value) else Null
    case MaterializedAt => if claim.materializedAt.Some? then TimeCell(claim.materializedAt.value) else Null
    case ExpiresAt => TimeCell(claim.expiresAt)
    case CreatedAt => TimeCell(claim.createdAt)
    case UpdatedAt => TimeCell(claim.updatedAt)
  }

  lemma ScanNeverFails(m: Mutation, id: int, extra: string -> Cell, c: Column)
    ensures Scan(KindOf(c), StoredCell(m, id, extra, c)).Some?
  {
  }


  // The node a create returns holds what the builder was told to set, and zero values for the rest.
  lemma NodeHoldsMutation(m: Mutation)
    ensures var n := NodeOf(m);
            && n.id == 0 && n.selectValues == map[]
            && n.claimGroupID == (if m.claimGroupID.Some? then m.claimGroupID.value else 0)
            && n.relayProviderID == (if m.relayProviderID.Some? then m.relayProviderID.value else 0)
            && n.requestID == (if m.requestID.Some? then m.requestID.value else "")
            && n.canonicalDigest == (if m.canonicalDigest.Some? then m.canonicalDigest.value else "")
            && n.status == (if m.status.Some? then m.status.value else "")
            && n.attemptCount == (if m.attemptCount.Some? then m.attemptCount.value else 0)
            && n.nextAttemptAt == (if m.nextAttemptAt.Some? then m.nextAttemptAt.value else 0)
            && n.leaseToken == (if m.leaseToken.Some? then m.leaseToken.value else "")
            && n.leaseExpiresAt == m.leaseExpiresAt
            && n.lastErrorCode == (if m.lastErrorCode.Some? then m.lastErrorCode.value else "")
            && n.requestedModel == (if m.requestedModel.Some? then m.requestedModel.value else "")
            && n.usageAt == m.usageAt
            && n.inputTokens == (if m.inputTokens.Some? then m.inputTokens.value else 0)
            && n.outputTokens == (if m.outputTokens.Some? then m.outputTokens.value else 0)
            && n.cacheCreationTokens == (if m.cacheCreationTokens.Some? then m.cacheCreationTokens.value else 0)
            && n.cacheReadTokens == (if m.cacheReadTokens.Some? then m.cacheReadTokens.value else 0)
            && n.totalTokens == (if m.totalTokens.Some? then m.totalTokens.value else 0)
            && n.reconciledAt == m.reconciledAt
            && n.materializedPoolID == m.materializedPoolID
            && n.materializedAt == m.materializedAt
            && n.expiresAt == (if m.expiresAt.Some? then m.expiresAt.value else 0)
            && n.createdAt == (if m.createdAt.Some? then m.createdAt.value else 0)
            && n.updatedAt == (if m.updatedAt.Some? then m.updatedAt.value else 0)
  {
  }

  // The row that is inserted holds what the builder was told to set, each in its own column.
  lemma RowHoldsMutation(m: Mutation, id: int, extra: string -> Cell)
    ensures StoredCell(m, id, extra, ID) == IntCell(id)
    ensures StoredCell(m, id, extra, ClaimGroupID) == if m.claimGroupID.Some? then IntCell(m.claimGroupID.value) else Null
    ensures StoredCell(m, id, extra, RelayProviderID) == if m.relayProviderID.Some? then IntCell(m.relayProviderID.value) else Null
    ensures StoredCell(m, id, extra, RequestID) == if m.requestID.Some? then TextCell(m.requestID.value) else Null
    ensures StoredCell(m, id, extra, CanonicalDigest) == if m.canonicalDigest.Some? then TextCell(m.canonicalDigest.value) else Null
    ensures StoredCell(m, id, extra, Status) == if m.status.Some? then TextCell(m.status.value) else Null
    ensures StoredCell(m, id, extra, AttemptCount) == if m.attemptCount.Some? then IntCell(m.attemptCount.value) else Null
    ensures StoredCell(m, id, extra, NextAttemptAt) == if m.nextAttemptAt.Some? then TimeCell(m.nextAttemptAt.value) else Null
    ensures StoredCell(m, id, extra, LeaseToken) == if m.leaseToken.Some? then TextCell(m.leaseToken.value) else Null
    ensures StoredCell(m, id, extra, LeaseExpiresAt) == if m.leaseExpiresAt.Some? then TimeCell(m.leaseExpiresAt.value) else Null
    ensures StoredCell(m, id, extra, LastErrorCode) == if m.lastErrorCode.Some? then TextCell(m.lastErrorCode.value) else Null
    ensures StoredCell(m, id, extra, RequestedModel) == if m.requestedModel.Some? then TextCell(m.requestedModel.value) else Null
    ensures StoredCell(m, id, extra, UsageAt) == if m.usageAt.Some? then TimeCell(m.usageAt.value) else Null
    ensures StoredCell(m, id, extra, InputTokens) == if m.inputTokens.Some? then IntCell(m.inputTokens.value) else Null
    ensures StoredCell(m, id, extra, OutputTokens) == if m.outputTokens.Some? then IntCell(m.outputTokens.value) else Null
    ensures StoredCell(m, id, extra, CacheCreationTokens) == if m.cacheCreationTokens.Some? then IntCell(m.cacheCreationTokens.value) else Null
    ensures StoredCell(m, id, extra, CacheReadTokens) == if m.cacheReadTokens.Some? then IntCell(m.cacheReadTokens.value) else Null
    ensures StoredCell(m, id, extra, TotalTokens) == if m.totalTokens.Some? then IntCell(m.totalTokens.value) else Null
    ensures StoredCell(m, id, extra, ReconciledAt) == if m.reconciledAt.Some? then TimeCell(m.reconciledAt.value) else Null
    ensures StoredCell(m, id, extra, MaterializedPoolID) == if m.materializedPoolID.Some? then IntCell(m.materializedPoolID.value) else Null
    ensures StoredCell(m, id, extra, MaterializedAt) == if m.materializedAt.Some? then TimeCell(m.materializedAt.value) else Null
    ensures StoredCell(m, id, extra, ExpiresAt) == if m.expiresAt.Some? then TimeCell(m.expiresAt.value) else Null
    ensures StoredCell(m, id, extra, CreatedAt) == if m.createdAt.Some? then TimeCell(m.createdAt.value) else Null
    ensures StoredCell(m, id, extra, UpdatedAt) == if m.updatedAt.Some? then TimeCell(m.updatedAt.value) else Null
  {
    RowHoldsNumbers(m, id, extra);
    RowHoldsTexts(m, id, extra);
    RowHoldsTimes(m, id, extra);
    RowHoldsNillableTimes(m, id, extra);
  }

  lemma RowHoldsNumbers(m: Mutation, id: int, extra: string -> Cell)
    ensures StoredCell(m, id, extra, ClaimGroupID) == if m.claimGroupID.Some? then IntCell(m.claimGroupID.value) else Null
    ensures StoredCell(m, id, extra, RelayProviderID) == if m.relayProviderID.Some? then IntCell(m.relayProviderID.value) else Null
    ensures StoredCell(m, id, extra, AttemptCount) == if m.attemptCount.Some? then IntCell(m.attemptCount.value) else Null
    ensures StoredCell(m, id, extra, InputTokens) == if m.inputTokens.Some? then IntCell(m.inputTokens.value) else Null
    ensures StoredCell(m, id, extra, OutputTokens) == if m.outputTokens.Some? then IntCell(m.outputTokens.value) else Null
    ensures StoredCell(m, id, extra, CacheCreationTokens) == if m.cacheCreationTokens.Some? then IntCell(m.cacheCreationTokens.value) else Null
    ensures StoredCell(m, id, extra, CacheReadTokens) == if m.cacheReadTokens.Some? then IntCell(m.cacheReadTokens.value) else Null
    ensures StoredCell(m, id, extra, TotalTokens) == if m.totalTokens.Some? then IntCell(m.totalTokens.value) else Null
    ensures StoredCell(m, id, extra, MaterializedPoolID) == if m.materializedPoolID.Some? then IntCell(m.materializedPoolID.value) else Null
  {
  }

  lemma RowHoldsTexts(m: Mutation, id: int, extra: string -> Cell)
    ensures StoredCell(m, id, extra, RequestID) == if m.requestID.Some? then TextCell(m.requestID.value) else Null
    ensures StoredCell(m, id, extra, CanonicalDigest) == if m.canonicalDigest.Some? then TextCell(m.canonicalDigest.value) else Null
    ensures StoredCell(m, id, extra, Status) == if m.status.Some? then TextCell(m.status.value) else Null
    ensures StoredCell(m, id, extra, LeaseToken) == if m.leaseToken.Some? then TextCell(m.leaseToken.value) else Null
    ensures StoredCell(m, id, extra, LastErrorCode) == if m.lastErrorCode.Some? then TextCell(m.lastErrorCode.value) else Null
    ensures StoredCell(m, id, extra, RequestedModel) == if m.requestedModel.Some? then TextCell(m.requestedModel.value) else Null
  {
  }

  lemma RowHoldsTimes(m: Mutation, id: int, extra: string -> Cell)
    ensures StoredCell(m, id, extra, NextAttemptAt) == if m.nextAttemptAt.Some? then TimeCell(m.nextAttemptAt.value) else Null
    ensures StoredCell(m, id, extra, ExpiresAt) == if m.expiresAt.Some? then TimeCell(m.expiresAt.value) else Null
    ensures StoredCell(m, id, extra, CreatedAt) == if m.createdAt.Some? then TimeCell(m.createdAt.value) else Null
    ensures StoredCell(m, id, extra, UpdatedAt) == if m.updatedAt.Some? then TimeCell(m.updatedAt.value) else Null
  {
  }

  lemma RowHoldsNillableTimes(m: Mutation, id: int, extra: string -> Cell)
    ensures StoredCell(m, id, extra, LeaseExpiresAt) == if m.leaseExpiresAt.Some? then TimeCell(m.leaseExpiresAt.value) else Null
    ensures StoredCell(m, id, extra, UsageAt) == if m.usageAt.Some? then TimeCell(m.usageAt.value) else Null
    ensures StoredCell(m, id, extra, ReconciledAt) == if m.reconciledAt.Some? then TimeCell(m.reconciledAt.value) else Null
    ensures StoredCell(m, id, extra, MaterializedAt) == if m.materializedAt.Some? then TimeCell(m.materializedAt.value) else Null
  {
  }

  /** What a column holds once it was read back: the field of the node that was returned. */
  function ExpectedCell(m: Mutation, id: int, extra: string -> Cell, c: Column): Cell {
    if c.Other? then extra(c.name) else FieldCell(NodeOf(m).(id := id), c)
  }

  lemma NumberIsRead(m: Mutation, id: int, extra: string -> Cell, claim: Claim, c: Column, h: Holder)
    requires KindOf(c) == KindInt64
    requires Scan(KindOf(c), StoredCell(m, id, extra, c)) == Some(h)
    requires FieldCell(claim, c) in {FieldCell(ZERO_CLAIM, c), ExpectedCell(m, id, extra, c)}
    ensures AssignField(claim, c, h).Ok?
    ensures FieldCell(AssignField(claim, c, h).value, c) == ExpectedCell(m, id, extra, c)
  {
    match c {
      case ID =>
      case ClaimGroupID =>
      case RelayProviderID =>
      case AttemptCount =>
      case InputTokens =>
      case OutputTokens =>
      case CacheCreationTokens =>
      case CacheReadTokens =>
      case TotalTokens =>
      case MaterializedPoolID =>
      case _ =>
    }
  }

  lemma TextIsRead(m: Mutation, id: int, extra: string -> Cell, claim: Claim, c: Column, h: Holder)
    requires KindOf(c) == KindString
    requires Scan(KindOf(c), StoredCell(m, id, extra, c)) == Some(h)
    requires FieldCell(claim, c) in {FieldCell(ZERO_CLAIM, c), ExpectedCell(m, id, extra, c)}
    ensures AssignField(claim, c, h).Ok?
    ensures FieldCell(AssignField(claim, c, h).value, c) == ExpectedCell(m, id, extra, c)
  {
    match c {
      case RequestID =>
      case CanonicalDigest =>
      case Status =>
      case LeaseToken =>
      case LastErrorCode =>
      case RequestedModel =>
      case _ =>
    }
  }

  lemma TimeIsRead(m: Mutation, id: int, extra: string -> Cell, claim: Claim, c: Column, h: Holder)
    requires KindOf(c) == KindTime
    requires Scan(KindOf(c), StoredCell(m, id, extra, c)) == Some(h)
    requires FieldCell(claim, c) in {FieldCell(ZERO_CLAIM, c), ExpectedCell(m, id, extra, c)}
    ensures AssignField(claim, c, h).Ok?
    ensures FieldCell(AssignField(claim, c, h).value, c) == ExpectedCell(m, id, extra, c)
  {
    match c {
      case NextAttemptAt =>
      case LeaseExpiresAt =>
      case UsageAt =>
      case ReconciledAt =>
      case MaterializedAt =>
      case ExpiresAt =>
      case CreatedAt =>
      case UpdatedAt =>
      case _ =>
    }
  }

  // Assigning a column brings in the field the create returned, whether or not it was set.
  lemma AssignReads(m: Mutation, id: int, extra: string -> Cell, claim: Claim, c: Column, h: Holder)
    requires Scan(KindOf(c), StoredCell(m, id, extra, c)) == Some(h)
    requires FieldCell(claim, c) in {FieldCell(ZERO_CLAIM, c), ExpectedCell(m, id, extra, c)}
    ensures AssignField(claim, c, h).Ok?
    ensures FieldCell(AssignField(claim, c, h).value, c) == ExpectedCell(m, id, extra, c)
  {
    match KindOf(c) {
      case KindInt64 => NumberIsRead(m, id, extra, claim, c, h);
      case KindString => TextIsRead(m, id, extra, claim, c, h);
      case KindTime => TimeIsRead(m, id, extra, claim, c, h);
      case KindUnknown =>
    }
  }

  lemma NumberKeepsOthers(claim: Claim, c: Column, h: Holder, d: Column)
    requires KindOf(c) == KindInt64 && AssignField(claim, c, h).Ok? && d != c
    ensures FieldCell(AssignField(claim, c, h).value, d) == FieldCell(claim, d)
  {
    match c {
      case ID =>
      case ClaimGroupID =>
      case RelayProviderID =>
      case AttemptCount =>
      case InputTokens =>
      case OutputTokens =>
      case CacheCreationTokens =>
      case CacheReadTokens =>
      case TotalTokens =>
      case MaterializedPoolID =>
      case _ =>
    }
  }

  lemma TextKeepsOthers(claim: Claim, c: Column, h: Holder, d: Column)
    requires KindOf(c) == KindString && AssignField(claim, c, h).Ok? && d != c
    ensures FieldCell(AssignField(claim, c, h).value, d) == FieldCell(claim, d)
  {
    match c {
      case RequestID =>
      case CanonicalDigest =>
      case Status =>
      case LeaseToken =>
      case LastErrorCode =>
      case RequestedModel =>
      case _ =>
    }
  }

  lemma TimeKeepsOthers(claim: Claim, c: Column, h: Holder, d: Column)
    requires KindOf(c) == KindTime && AssignField(claim, c, h).Ok? && d != c
    ensures FieldCell(AssignField(claim, c, h).value, d) == FieldCell(claim, d)
  {
    match c {
      case NextAttemptAt =>
      case LeaseExpiresAt =>
      case UsageAt =>
      case ReconciledAt =>
      case MaterializedAt =>
      case ExpiresAt =>
      case CreatedAt =>
      case UpdatedAt =>
      case _ =>
    }
  }

  // Assigning a column touches no other column.
  lemma AssignKeeps(claim: Claim, c: Column, h: Holder, d: Column)
    requires AssignField(claim, c, h).Ok? && d != c
    ensures FieldCell(AssignField(claim, c, h).value, d) == FieldCell(claim, d)
  {
    match KindOf(c) {
      case KindInt64 => NumberKeepsOthers(claim, c, h, d);
      case KindString => TextKeepsOthers(claim, c, h, d);
      case KindTime => TimeKeepsOthers(claim, c, h, d);
      case KindUnknown =>
    }
  }

  // Two entities with the same columns are the same.
  lemma SameColumnsSameClaim(a: Claim, b: Claim)
    requires forall c: Column :: FieldCell(a, c) == FieldCell(b, c)
    requires a.selectValues == b.selectValues
    ensures a == b
  {
    SameNumbers(a, b);
    SameTexts(a, b);
    SameTimes(a, b);
  }

  lemma SameNumbers(a: Claim, b: Claim)
    requires forall c: Column :: FieldCell(a, c) == FieldCell(b, c)
    ensures a.id == b.id
    ensures a.claimGroupID == b.claimGroupID
    ensures a.relayProviderID == b.relayProviderID
    ensures a.attemptCount == b.attemptCount
    ensures a.inputTokens == b.inputTokens
    ensures a.outputTokens == b.outputTokens
    ensures a.cacheCreationTokens == b.cacheCreationTokens
    ensures a.cacheReadTokens == b.cacheReadTokens
    ensures a.totalTokens == b.totalTokens
    ensures a.materializedPoolID == b.materializedPoolID
  {
    assert FieldCell(a, ID) == FieldCell(b, ID);
    assert FieldCell(a, ClaimGroupID) == FieldCell(b, ClaimGroupID);
    assert FieldCell(a, RelayProviderID) == FieldCell(b, RelayProviderID);
    assert FieldCell(a, AttemptCount) == FieldCell(b, AttemptCount);
    assert FieldCell(a, InputTokens) == FieldCell(b, InputTokens);
    assert FieldCell(a, OutputTokens) == FieldCell(b, OutputTokens);
    assert FieldCell(a, CacheCreationTokens) == FieldCell(b, CacheCreationTokens);
    assert FieldCell(a, CacheReadTokens) == FieldCell(b, CacheReadTokens);
    assert FieldCell(a, TotalTokens) == FieldCell(b, TotalTokens);
    assert FieldCell(a, MaterializedPoolID) == FieldCell(b, MaterializedPoolID);
  }

  lemma SameTexts(a: Claim, b: Claim)
    requires forall c: Column :: FieldCell(a, c) == FieldCell(b, c)
    ensures a.requestID == b.requestID
    ensures a.canonicalDigest == b.canonicalDigest
    ensures a.status == b.status
    ensures a.leaseToken == b.leaseToken
    ensures a.lastErrorCode == b.lastErrorCode
    ensures a.requestedModel == b.requestedModel
  {
    assert FieldCell(a, RequestID) == FieldCell(b, RequestID);
    assert FieldCell(a, CanonicalDigest) == FieldCell(b, CanonicalDigest);
    assert FieldCell(a, Status) == FieldCell(b, Status);
    assert FieldCell(a, LeaseToken) == FieldCell(b, LeaseToken);
    assert FieldCell(a, LastErrorCode) == FieldCell(b, LastErrorCode);
    assert FieldCell(a, RequestedModel) == FieldCell(b, RequestedModel);
  }

  lemma SameTimes(a: Claim, b: Claim)
    requires forall c: Column :: FieldCell(a, c) == FieldCell(b, c)
    ensures a.nextAttemptAt == b.nextAttemptAt
    ensures a.leaseExpiresAt == b.leaseExpiresAt
    ensures a.usageAt == b.usageAt
    ensures a.reconciledAt == b.reconciledAt
    ensures a.materializedAt == b.materializedAt
    ensures a.expiresAt == b.expiresAt
    ensures a.createdAt == b.createdAt
    ensures a.updatedAt == b.updatedAt
  {
    assert FieldCell(a, NextAttemptAt) == FieldCell(b, NextAttemptAt);
    assert FieldCell(a, LeaseExpiresAt) == FieldCell(b, LeaseExpiresAt);
    assert FieldCell(a, UsageAt) == FieldCell(b, UsageAt);
    assert FieldCell(a, ReconciledAt) == FieldCell(b, ReconciledAt);
    assert FieldCell(a, MaterializedAt) == FieldCell(b, MaterializedAt);
    assert FieldCell(a, ExpiresAt) == FieldCell(b, ExpiresAt);
    assert FieldCell(a, CreatedAt) == FieldCell(b, CreatedAt);
    assert FieldCell(a, UpdatedAt) == FieldCell(b, UpdatedAt);
  }

  // Create, then read: over any list of columns, in any order, repeated or unknown ones too,
  // reading never fails, each column that was read is the field the create returned, and the
  // others stay zero.
  lemma {:induction false} CreateThenRead(m: Mutation, id: int, extra: string -> Cell, columns: seq<Column>, values: seq<Holder>)
    requires |columns| <= |values|
    requires forall i :: 0 <= i < |columns| ==>
               Scan(KindOf(columns[i]), StoredCell(m, id, extra, columns[i])) == Some(values[i])
    ensures AssignFields(ZERO_CLAIM, columns, values).error == None
    ensures forall c: Column ::
              FieldCell(AssignFields(ZERO_CLAIM, columns, values).claim, c) ==
              if c in columns then ExpectedCell(m, id, extra, c) else FieldCell(ZERO_CLAIM, c)
  {
    if columns != [] {
      var n := |columns| - 1;
      CreateThenRead(m, id, extra, columns[..n], values);
      var before, last := AssignFields(ZERO_CLAIM, columns[..n], values).claim, columns[n];
      assert columns == columns[..n] + [last];
      AssignReads(m, id, extra, before, last, values[n]);
      forall d: Column | d != last
        ensures FieldCell(AssignField(before, last, values[n]).value, d) == FieldCell(before, d)
      {
        AssignKeeps(before, last, values[n], d);
      }
    }
  }

  /** Reading the row back: scanning it over the columns and assigning what was scanned. */
  method ReadBack(m: Mutation, id: int, extra: string -> Cell, columns: seq<Column>)
    returns (node: ClaimNode, error: Option<ReadError>)
    ensures fresh(node) && error == None
    ensures forall c: Column ::
              FieldCell(node.claim, c) ==
              if c in columns then ExpectedCell(m, id, extra, c) else FieldCell(ZERO_CLAIM, c)
  {
    var kinds := ScanValues(columns);
    var values: seq<Holder> := [];
    for i := 0 to |columns|
      invariant |values| == i
      invariant forall j :: 0 <= j < |columns| ==> kinds[j] == KindOf(columns[j])
      invariant forall j :: 0 <= j < i ==>
        Scan(KindOf(columns[j]), StoredCell(m, id, extra, columns[j])) == Some(values[j])
    {
      ScanNeverFails(m, id, extra, columns[i]);
      values := values + [Scan(kinds[i], StoredCell(m, id, extra, columns[i])).value];
    }
    node := new ClaimNode();
    error := node.AssignValues(columns, values);
    CreateThenRead(m, id, extra, columns, values);
  }

  lemma {:induction false} NoUnknownColumns(columns: seq<Column>, values: seq<Holder>)
    requires |columns| <= |values| && forall c :: c in columns ==> !c.Other?
    ensures AssignFields(ZERO_CLAIM, columns, values).claim.selectValues == map[]
  {
    if columns != [] {
      var n := |columns| - 1;
      NoUnknownColumns(columns[..n], values);
      assert columns[n] in columns;
      forall c | c in columns[..n]
        ensures !c.Other?
      {
        assert c in columns;
      }
      var before := AssignFields(ZERO_CLAIM, columns[..n], values).claim;
      if AssignField(before, columns[n], values[n]).Ok? {
        KnownColumnKeepsUnknown(before, columns[n], values[n]);
      }
    }
  }

  lemma KnownColumnKeepsUnknown(claim: Claim, c: Column, h: Holder)
    requires !c.Other? && AssignField(claim, c, h).Ok?
    ensures AssignField(claim, c, h).value.selectValues == claim.selectValues
  {
    match c {
      case ID =>
      case ClaimGroupID =>
      case RelayProviderID =>
      case RequestID =>
      case CanonicalDigest =>
      case Status =>
      case AttemptCount =>
      case NextAttemptAt =>
      case LeaseToken =>
      case LeaseExpiresAt =>
      case LastErrorCode =>
      case RequestedModel =>
      case UsageAt =>
      case InputTokens =>
      case OutputTokens =>
      case CacheCreationTokens =>
      case CacheReadTokens =>
      case TotalTokens =>
      case ReconciledAt =>
      case MaterializedPoolID =>
      case MaterializedAt =>
      case ExpiresAt =>
      case CreatedAt =>
      case UpdatedAt =>
    }
  }

  lemma AllColumnsRead(m: Mutation, id: int, extra: string -> Cell, columns: seq<Column>, values: seq<Holder>, c: Column)
    requires |columns| <= |values|
    requires forall c: Column :: c in columns <==> !c.Other?
    requires forall i :: 0 <= i < |columns| ==>
               Scan(KindOf(columns[i]), StoredCell(m, id, extra, columns[i])) == Some(values[i])
    ensures FieldCell(AssignFields(ZERO_CLAIM, columns, values).claim, c) == FieldCell(NodeOf(m).(id := id), c)
  {
    CreateThenRead(m, id, extra, columns, values);
    assert c in columns <==> !c.Other?;
  }

  // Reading all the columns of the table gives back the very node the create returned.
  lemma FullRoundTrip(m: Mutation, id: int, extra: string -> Cell, columns: seq<Column>, values: seq<Holder>)
    requires |columns| <= |values|
    requires forall c: Column :: c in columns <==> !c.Other?
    requires forall i :: 0 <= i < |columns| ==>
               Scan(KindOf(columns[i]), StoredCell(m, id, extra, columns[i])) == Some(values[i])
    ensures AssignFields(ZERO_CLAIM, columns, values) == Assigned(NodeOf(m).(id := id), None)
  {
    CreateThenRead(m, id, extra, columns, values);
    NoUnknownColumns(columns, values);
    var read, node := AssignFields(ZERO_CLAIM, columns, values).claim, NodeOf(m).(id := id);
    forall c: Column
      ensures FieldCell(read, c) == FieldCell(node, c)
    {
      AllColumnsRead(m, id, extra, columns, values, c);
    }
    SameColumnsSameClaim(read, node);
  }
}
