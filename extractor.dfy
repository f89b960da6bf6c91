/**
 * The feature extractor: the three fields the script reads from an
 * application's `Static_analysis` section, the permission presence map, and
 * the field-drop test `is_to_drop`.
 */
module Extractor {
  import opened Wrappers
  import opened Frames

  /** A class label; the script passes these two. */
  type Label = int
  const GOODWARE_CLASS: Label := 0
  const MALWARE_CLASS: Label := 1

  const OpcodesField: Name := "Opcodes"
  const ApiCallsField: Name := "API calls"
  const PermissionsField: Name := "Permissions"

  /** The field names `is_to_drop` keeps, in the order it tests them. */
  const FeatureFields: seq<Name> := [PermissionsField, OpcodesField, ApiCallsField]

  /**
   * An application's `Static_analysis` section as already parsed: the
   * opcode-frequency object, the API-call-frequency object and the list of
   * requested permissions, each absent when the section has no such key.
   * The section's other fields are never read and are not represented.
   */
  datatype Section = Section(opcodes: Option<Dict>, apiCalls: Option<Dict>, permissions: Option<seq<Name>>)

  /** What aborts a run: a `KeyError` on a missing key, or a file the JSON reader rejects. */
  datatype Error = MissingKey(key: Name) | Unparsable(path: string)

  /** A section's three feature families, ready for the tables. */
  datatype Features = Features(opcodes: Dict, apiCalls: Dict, permissions: Dict)

  /**
   * `{permission: 1 for permission in perms}`: one key per distinct name, in
   * order of first occurrence, every value 1.
   */
  function PermissionDict(perms: seq<Name>): (r: Dict)
    ensures forall p :: p in r.vals <==> p in perms
    ensures forall p :: p in r.vals ==> r.vals[p] == 1
    ensures |r.keys| <= |perms|
    decreases |perms|
  {
    if perms == [] then EmptyDict
    else SetItem(PermissionDict(perms[..|perms| - 1]), perms[|perms| - 1], 1)
  }

  /**
   * The lookups `dframe["Opcodes"]`, `dframe["API calls"]` and
   * `dframe["Permissions"]`, in that order; the first missing key aborts.
   */
  function Extract(s: Section): (r: Result<Features, Error>)
    ensures r.Ok? <==> s.opcodes.Some? && s.apiCalls.Some? && s.permissions.Some?
    ensures s.opcodes.None? ==> r == Err(MissingKey(OpcodesField))
    ensures s.opcodes.Some? && s.apiCalls.None? ==> r == Err(MissingKey(ApiCallsField))
    ensures s.opcodes.Some? && s.apiCalls.Some? && s.permissions.None? ==> r == Err(MissingKey(PermissionsField))
    ensures r.Ok? ==> r.value.opcodes == s.opcodes.value && r.value.apiCalls == s.apiCalls.value
    ensures r.Ok? ==> forall p :: p in r.value.permissions.vals <==> p in s.permissions.value
  {
    match s.opcodes
    case None => Err(MissingKey(OpcodesField))
    case Some(opcodes) =>
      match s.apiCalls
      case None => Err(MissingKey(ApiCallsField))
      case Some(apiCalls) =>
        match s.permissions
        case None => Err(MissingKey(PermissionsField))
        case Some(perms) => Ok(Features(opcodes, apiCalls, PermissionDict(perms)))
  }

  /** Python's `s.startswith(prefix)`, compared character by character. */
  function StartsWith(s: string, prefix: string): (r: bool)
    ensures r <==> prefix <= s
    decreases |prefix|
  {
    if prefix == [] then true
    else s != [] && s[0] == prefix[0] && StartsWith(s[1..], prefix[1..])
  }

  /**
   * `is_to_drop`: a section field counts as one to drop unless its name
   * begins with one of the three feature field names. The test is on
   * prefixes, so a name such as "Opcodes (raw)" counts as kept too. The
   * script defines this test but never calls it, so no run drops anything.
   */
  function IsToDrop(colName: string): (r: bool)
    ensures r <==> forall i :: 0 <= i < |FeatureFields| ==> !(FeatureFields[i] <= colName)
  {
    assert FeatureFields[0] == PermissionsField && FeatureFields[1] == OpcodesField && FeatureFields[2] == ApiCallsField;
    !(StartsWith(colName, PermissionsField)
      || StartsWith(colName, OpcodesField)
      || StartsWith(colName, ApiCallsField))
  }

  /** The test keeps the three feature fields themselves, and any longer name they begin. */
  lemma FeatureFieldsKept(suffix: string)
    ensures !IsToDrop(OpcodesField + suffix)
    ensures !IsToDrop(ApiCallsField + suffix)
    ensures !IsToDrop(PermissionsField + suffix)
  {
  }

  /** The test drops a field no feature name is a prefix of: the empty name, a lower-case spelling, a proper prefix. */
  lemma OtherFieldsDropped()
    ensures IsToDrop("")
    ensures IsToDrop("opcodes")
    ensures IsToDrop("API")
    ensures IsToDrop("Strings")
  {
  }
}
