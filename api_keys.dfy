/**
 * Several upstream API keys per provider (backend/internal/handlers/api_keys.go):
 * the round-robin choice among a provider's active keys, driven by the
 * package-level `keyIndexMap`, and the admin handlers over the
 * `provider_api_keys` table. The rows a SELECT returns are passed in; the
 * table is a map from key id to row.
 */
module ApiKeys {
  import opened Wrappers
  import opened Text
  import opened Sql

  /** One row of `SELECT id, api_key ... WHERE provider_id = ? AND is_active = 1 ORDER BY id`. */
  datatype KeyRow = KeyRow(id: int, apiKey: string)

  // ---------------------------------------------------------------------------
  // Round-robin selection

  /** Every stored position is a valid slice index start: the handler only ever stores `(i+1) % n`. */
  predicate NonNegative(keyIndex: map<int, int>) {
    forall p :: p in keyIndex ==> keyIndex[p] >= 0
  }

  /** `keyIndexMap[providerID]`: a missing provider reads as Go's zero value. */
  function StoredIndex(keyIndex: map<int, int>, pid: int): int {
    if pid in keyIndex then keyIndex[pid] else 0
  }

  /** The position used for this call: the stored one, or 0 once it has run past the list. */
  function Slot(stored: int, n: int): int {
    if stored >= n then 0 else stored
  }

  /** `(a + 1) % n` for a position `a` inside a list of length `n`. */
  lemma ModSucc(a: int, n: int)
    requires 0 <= a < n
    ensures (a + 1) % n == Wrap(a + 1, n)
  {
  }

  /** A position that has run past the end by less than one length, wrapped back once. */
  function Wrap(x: int, n: int): int {
    if x < n then x else x - n
  }

  /**
   * One call of GetNextAPIKey against the active rows `keys` (in id order):
   * the chosen row, or the error for a provider without active keys, and the
   * index map afterwards.
   */
  function NextKey(keyIndex: map<int, int>, pid: int, keys: seq<KeyRow>): (r: (Result<KeyRow, string>, map<int, int>))
    requires NonNegative(keyIndex)
    ensures r.0.Ok? <==> |keys| > 0
    ensures r.0.Err? ==> r.0.error == "no active api keys"
    ensures r.0.Ok? ==> r.0.value in keys
    ensures NonNegative(r.1)
    ensures |keys| <= 1 ==> r.1 == keyIndex
    ensures |keys| >= 2 ==> pid in r.1 && 0 <= r.1[pid] < |keys|
  {
    if |keys| == 0 then (Err("no active api keys"), keyIndex)
    else if |keys| == 1 then (Ok(keys[0]), keyIndex)
    else
      var i := Slot(StoredIndex(keyIndex, pid), |keys|);
      (Ok(keys[i]), keyIndex[pid := Wrap(i + 1, |keys|)])
  }

  /** A call for one provider leaves every other provider's position as it was. */
  lemma NextKeyLeavesOthers(keyIndex: map<int, int>, pid: int, keys: seq<KeyRow>, p: int)
    requires NonNegative(keyIndex) && p != pid
    ensures var after := NextKey(keyIndex, pid, keys).1;
      (p in after <==> p in keyIndex) && (p in keyIndex ==> after[p] == keyIndex[p])
  {
  }

  /** The rows returned by `count` consecutive calls for one provider, the key list unchanged. */
  function Picks(keyIndex: map<int, int>, pid: int, keys: seq<KeyRow>, count: nat): (picked: seq<KeyRow>)
    requires NonNegative(keyIndex) && |keys| > 0
    ensures |picked| == count
    decreases count
  {
    if count == 0 then []
    else
      var (r, after) := NextKey(keyIndex, pid, keys);
      [r.value] + Picks(after, pid, keys, count - 1)
  }

  /**
   * With two or more keys the calls of one round walk the list cyclically
   * from the slot the stored index gives: the `j`-th call returns row `s + j`,
   * wrapped around the end.
   */
  lemma {:induction false} PicksRotate(keyIndex: map<int, int>, pid: int, keys: seq<KeyRow>, count: nat)
    requires NonNegative(keyIndex) && |keys| >= 2 && count <= |keys|
    ensures var s := Slot(StoredIndex(keyIndex, pid), |keys|);
      forall j :: 0 <= j < count ==> Picks(keyIndex, pid, keys, count)[j] == keys[Wrap(s + j, |keys|)]
    decreases count
  {
    if count > 0 {
      var n := |keys|;
      var s := Slot(StoredIndex(keyIndex, pid), n);
      var after := NextKey(keyIndex, pid, keys).1;
      assert Slot(StoredIndex(after, pid), n) == Wrap(s + 1, n);
      PicksRotate(after, pid, keys, count - 1);
      var picked := Picks(keyIndex, pid, keys, count);
      assert picked == [keys[s]] + Picks(after, pid, keys, count - 1);
      forall j | 0 <= j < count
        ensures picked[j] == keys[Wrap(s + j, n)]
      {
        if j > 0 {
          assert picked[j] == Picks(after, pid, keys, count - 1)[j - 1];
          assert Wrap(Wrap(s + 1, n) + j - 1, n) == Wrap(s + j, n);
        }
      }
    }
  }

  /** A list read cyclically from `s` is the rotation `keys[s..] + keys[..s]`. */
  lemma RotationPointwise(keys: seq<KeyRow>, s: int, picked: seq<KeyRow>)
    requires 0 <= s < |keys| && |picked| == |keys|
    requires forall j :: 0 <= j < |keys| ==> picked[j] == keys[Wrap(s + j, |keys|)]
    ensures picked == keys[s..] + keys[..s]
  {
    var n := |keys|;
    var rotated := keys[s..] + keys[..s];
    forall j | 0 <= j < n
      ensures picked[j] == rotated[j]
    {
      if j < n - s {
        assert rotated[j] == keys[s..][j] == keys[s + j];
      } else {
        assert rotated[j] == keys[..s][j - (n - s)] == keys[s + j - n];
      }
    }
  }

  /** One round of `n` calls returns the list rotated to start at the current slot. */
  lemma RoundIsRotation(keyIndex: map<int, int>, pid: int, keys: seq<KeyRow>)
    requires NonNegative(keyIndex) && |keys| > 0
    ensures var s := if |keys| == 1 then 0 else Slot(StoredIndex(keyIndex, pid), |keys|);
      Picks(keyIndex, pid, keys, |keys|) == keys[s..] + keys[..s]
  {
    if |keys| == 1 {
      SingleKeyRound(keyIndex, pid, keys);
      assert keys[0..] + keys[..0] == keys;
    } else {
      RotatedRound(keyIndex, pid, keys);
    }
  }

  /** ...so a round hands out every active key exactly as often as it is listed. */
  lemma RoundPermutes(keyIndex: map<int, int>, pid: int, keys: seq<KeyRow>)
    requires NonNegative(keyIndex) && |keys| > 0
    ensures multiset(Picks(keyIndex, pid, keys, |keys|)) == multiset(keys)
  {
    RoundIsRotation(keyIndex, pid, keys);
    var s := if |keys| == 1 then 0 else Slot(StoredIndex(keyIndex, pid), |keys|);
    assert keys == keys[..s] + keys[s..];
  }

  /** With two or more keys a round is the key list rotated to start at the stored slot. */
  lemma RotatedRound(keyIndex: map<int, int>, pid: int, keys: seq<KeyRow>)
    requires NonNegative(keyIndex) && |keys| >= 2
    ensures var s := Slot(StoredIndex(keyIndex, pid), |keys|);
      Picks(keyIndex, pid, keys, |keys|) == keys[s..] + keys[..s]
  {
    var n := |keys|;
    var picked := Picks(keyIndex, pid, keys, n);
    var s := Slot(StoredIndex(keyIndex, pid), n);
    PicksRotate(keyIndex, pid, keys, n);
    forall j | 0 <= j < n
      ensures picked[j] == keys[Wrap(s + j, n)]
    {
      assert Picks(keyIndex, pid, keys, n)[j] == keys[Wrap(s + j, n)];
    }
    RotationPointwise(keys, s, picked);
  }

  /** With one active key every call returns it. */
  lemma SingleKeyRound(keyIndex: map<int, int>, pid: int, keys: seq<KeyRow>)
    requires NonNegative(keyIndex) && |keys| == 1
    ensures Picks(keyIndex, pid, keys, 1) == keys
  {
    assert Picks(keyIndex, pid, keys, 1) == [keys[0]] + Picks(keyIndex, pid, keys, 0);
  }

  /** A provider never seen before is served in id order, starting with its first key. */
  lemma FirstRoundInOrder(keyIndex: map<int, int>, pid: int, keys: seq<KeyRow>)
    requires NonNegative(keyIndex) && |keys| > 0 && pid !in keyIndex
    ensures Picks(keyIndex, pid, keys, |keys|) == keys
  {
    RoundIsRotation(keyIndex, pid, keys);
    assert keys[0..] + keys[..0] == keys;
  }

  /** The package-level `keyIndexMap`: provider id → position of the next key to hand out. */
  class KeyRotator {
    var keyIndex: map<int, int>

    ghost predicate Valid()
      reads this
    {
      NonNegative(keyIndex)
    }

    constructor ()
      ensures Valid() && keyIndex == map[]
    {
      keyIndex := map[];
    }

    /** GetNextAPIKey, given the provider's active rows in id order. */
    method GetNextAPIKey(pid: int, keys: seq<KeyRow>) returns (r: Result<KeyRow, string>)
      requires Valid()
      modifies this
      ensures Valid()
      ensures (r, keyIndex) == NextKey(old(keyIndex), pid, keys)
    {
      if |keys| == 0 {
        return Err("no active api keys");
      }
      if |keys| == 1 {
        return Ok(keys[0]);
      }
      var idx := if pid in keyIndex then keyIndex[pid] else 0;
      if idx >= |keys| {
        idx := 0;
      }
      var selected := keys[idx];
      ModSucc(idx, |keys|);
      keyIndex := keyIndex[pid := (idx + 1) % |keys|];
      r := Ok(selected);
    }
  }

  // ---------------------------------------------------------------------------
  // The provider_api_keys table

  /** One stored key (last_used_at and created_at are not modelled). */
  datatype ApiKey = ApiKey(providerId: int, apiKey: string, name: string, isActive: bool, usageCount: int)

  /** The body of AddAPIKey; `api_key` is a required field. */
  datatype ApiKeyCreate = ApiKeyCreate(apiKey: string, name: string)

  /** The body of UpdateAPIKey: absent fields are nil pointers. */
  datatype ApiKeyUpdate = ApiKeyUpdate(name: Option<string>, isActive: Option<bool>)

  /** What AddAPIKey answers with. */
  datatype AddedKey = AddedKey(id: int, providerId: int, name: string, isActive: bool)

  /**
   * The rows GetNextAPIKey's query returns for `pid`: the provider's active
   * keys, each once, in increasing id order.
   */
  ghost predicate ActiveRowsOf(table: map<int, ApiKey>, pid: int, rows: seq<KeyRow>) {
    (forall i, j :: 0 <= i < j < |rows| ==> rows[i].id < rows[j].id) &&
    (forall i :: 0 <= i < |rows| ==>
       rows[i].id in table && table[rows[i].id].providerId == pid && table[rows[i].id].isActive &&
       table[rows[i].id].apiKey == rows[i].apiKey) &&
    (forall k :: k in table && table[k].providerId == pid && table[k].isActive ==>
       exists i :: 0 <= i < |rows| && rows[i].id == k)
  }

  /** In a list with strictly increasing ids every row occurs once. */
  lemma {:induction false} IncreasingOnce(rows: seq<KeyRow>, i: int)
    requires forall a, b :: 0 <= a < b < |rows| ==> rows[a].id < rows[b].id
    requires 0 <= i < |rows|
    ensures multiset(rows)[rows[i]] == 1
    decreases |rows|
  {
    var last := |rows| - 1;
    assert rows == rows[..last] + [rows[last]];
    if i == last {
      assert rows[i] !in rows[..last];
    } else {
      IncreasingOnce(rows[..last], i);
      assert rows[i] != rows[last];
    }
  }

  /** Over the rows of the table, one round hands out each active key of the provider exactly once. */
  lemma RoundCoversActiveKeys(table: map<int, ApiKey>, pid: int, rows: seq<KeyRow>,
                              keyIndex: map<int, int>, k: int)
    requires ActiveRowsOf(table, pid, rows) && NonNegative(keyIndex) && |rows| > 0
    requires k in table && table[k].providerId == pid && table[k].isActive
    ensures multiset(Picks(keyIndex, pid, rows, |rows|))[KeyRow(k, table[k].apiKey)] == 1
  {
    RoundPermutes(keyIndex, pid, rows);
    var i :| 0 <= i < |rows| && rows[i].id == k;
    assert KeyRow(k, table[k].apiKey) == rows[i];
    IncreasingOnce(rows, i);
  }

  /** The keys of one provider, as ListAPIKeys returns them (row order aside). */
  function KeysOf(table: map<int, ApiKey>, pid: int): (r: map<int, ApiKey>)
    ensures forall k :: k in r <==> k in table && table[k].providerId == pid
    ensures forall k :: k in r ==> r[k] == table[k]
  {
    map k | k in table && table[k].providerId == pid :: table[k]
  }

  function CountFor(table: map<int, ApiKey>, pid: int): (n: nat)
    ensures n == |KeysOf(table, pid).Keys|
  {
    |KeysOf(table, pid).Keys|
  }

  /** `fmt.Sprintf("密钥 %d", count+1)`. */
  function DefaultKeyName(count: int): string {
    "密钥 " + Itoa(count + 1)
  }

  /** The stored name: the requested one, or the numbered default when it is empty. */
  function KeyName(requested: string, count: int): (name: string)
    ensures requested != "" ==> name == requested
    ensures requested == "" ==> name == DefaultKeyName(count)
  {
    if requested == "" then DefaultKeyName(count) else requested
  }

  /** The number in a default name is the key count plus one, read back exactly. */
  lemma DefaultKeyNameRoundTrip(count: int)
    ensures HasPrefix(DefaultKeyName(count), "密钥 ")
    ensures Atoi(TrimPrefix(DefaultKeyName(count), "密钥 ")) == Some(count + 1)
  {
    var name := DefaultKeyName(count);
    assert name[..|"密钥 "|] == "密钥 ";
    assert name[|"密钥 "|..] == Itoa(count + 1);
    AtoiItoa(count + 1);
  }

  /** Different key counts give different default names. */
  lemma DefaultKeyNamesDiffer(c1: int, c2: int)
    requires c1 != c2
    ensures DefaultKeyName(c1) != DefaultKeyName(c2)
  {
    DefaultKeyNameRoundTrip(c1);
    DefaultKeyNameRoundTrip(c2);
  }

  // UpdateAPIKey's statement

  datatype KeyColumn = NameCol | IsActiveCol

  function KeyColumnName(c: KeyColumn): string {
    match c
    case NameCol => "name"
    case IsActiveCol => "is_active"
  }

  /** `name = ?` when a name is given, then `is_active = ?` (0 or 1) when a flag is given. */
  function KeyAssignments(u: ApiKeyUpdate): (sets: seq<Assignment<KeyColumn>>)
    ensures sets == [] <==> u.name.None? && u.isActive.None?
    ensures |sets| <= 2
    ensures forall i :: 0 <= i < |sets| ==> !sets[i].SetCurrentTimestamp?
  {
    (if u.name.Some? then [SetText(NameCol, u.name.value)] else []) +
    (if u.isActive.Some? then [SetInt(IsActiveCol, if u.isActive.value then 1 else 0)] else [])
  }

  /** The stored row after the update: given fields replaced, the rest kept. */
  function ApplyKeyUpdate(k: ApiKey, u: ApiKeyUpdate): (r: ApiKey)
    ensures r.name == u.name.GetOr(k.name) && r.isActive == u.isActive.GetOr(k.isActive)
    ensures r.(name := k.name, isActive := k.isActive) == k
  {
    k.(name := u.name.GetOr(k.name), isActive := u.isActive.GetOr(k.isActive))
  }

  /** One clause executed against the row; `is_active` is read back as `== 1`. */
  function SetKeyColumn(k: ApiKey, a: Assignment<KeyColumn>): ApiKey {
    match a
    case SetText(NameCol, s) => k.(name := s)
    case SetInt(IsActiveCol, n) => k.(isActive := n == 1)
    case _ => k
  }

  /** Executing the built clauses writes exactly the update the request asks for. */
  lemma KeyStatementImplementsUpdate(k: ApiKey, u: ApiKeyUpdate)
    ensures ApplyAll(k, KeyAssignments(u), SetKeyColumn) == ApplyKeyUpdate(k, u)
  {
    var first := if u.name.Some? then [SetText(NameCol, u.name.value)] else [];
    var second := if u.isActive.Some? then [SetInt(IsActiveCol, if u.isActive.value then 1 else 0)] else [];
    ApplyAllAppend(k, first, second, SetKeyColumn);
    var mid := ApplyAll(k, first, SetKeyColumn);
    if first != [] {
      assert first[1..] == [];
    }
    assert mid == k.(name := u.name.GetOr(k.name));
    if second != [] {
      assert second[1..] == [];
    }
  }

  /** UpdateAPIKey's statement, or none when no field is given. */
  method KeyUpdateStatement(id: int, u: ApiKeyUpdate) returns (query: string, args: seq<SqlValue>)
    ensures KeyAssignments(u) != [] ==>
      query == "UPDATE provider_api_keys SET " + Join(Clauses(KeyAssignments(u), KeyColumnName), ", ") + " WHERE id = ?" &&
      args == Args(KeyAssignments(u)) + [IntArg(id)]
    ensures KeyAssignments(u) == [] ==> query == "" && args == []
  {
    var sets := KeyAssignments(u);
    if sets == [] {
      return "", [];
    }
    query := BuildUpdateQuery("UPDATE provider_api_keys SET ", Clauses(sets, KeyColumnName));
    args := Args(sets) + [IntArg(id)];
  }

  /** The `provider_api_keys` table and its AUTOINCREMENT counter. */
  class KeyStore {
    var keys: map<int, ApiKey>
    var nextId: int

    ghost predicate Valid()
      reads this
    {
      1 <= nextId && forall id :: id in keys ==> 0 < id < nextId
    }

    constructor ()
      ensures Valid() && keys == map[] && nextId == 1
    {
      keys := map[];
      nextId := 1;
    }

    /** ListAPIKeys: 400 for a bad id, 404 for an unknown provider, else the provider's keys. */
    method ListAPIKeys(idParam: string, providerIds: set<int>) returns (status: int, result: map<int, ApiKey>)
      ensures status == (if Atoi(idParam).None? then 400
                         else if Atoi(idParam).value !in providerIds then 404
                         else 200)
      ensures status == 200 ==> result == KeysOf(keys, Atoi(idParam).value)
      ensures status != 200 ==> result == map[]
    {
      var parsed := Atoi(idParam);
      if parsed.None? {
        return 400, map[];
      }
      if parsed.value !in providerIds {
        return 404, map[];
      }
      status, result := 200, KeysOf(keys, parsed.value);
    }

    /**
     * AddAPIKey: 400 for a bad id or a body without `api_key`, 404 for an
     * unknown provider, else a new active key under the requested or the
     * numbered default name.
     */
    method AddAPIKey(idParam: string, req: Option<ApiKeyCreate>, providerIds: set<int>)
      returns (status: int, added: Option<AddedKey>)
      requires Valid()
      modifies this
      ensures Valid()
      ensures status == (if Atoi(idParam).None? then 400
                         else if req.None? || req.value.apiKey == "" then 400
                         else if Atoi(idParam).value !in providerIds then 404
                         else 200)
      ensures status != 200 ==> unchanged(this) && added.None?
      ensures status == 200 ==>
        var pid := Atoi(idParam).value;
        var name := KeyName(req.value.name, CountFor(old(keys), pid));
        nextId == old(nextId) + 1 &&
        keys == old(keys)[old(nextId) := ApiKey(pid, req.value.apiKey, name, true, 0)] &&
        added == Some(AddedKey(old(nextId), pid, name, true))
    {
      var parsed := Atoi(idParam);
      if parsed.None? {
        return 400, None;
      }
      if req.None? || req.value.apiKey == "" {
        return 400, None;
      }
      var pid := parsed.value;
      if pid !in providerIds {
        return 404, None;
      }
      var name := req.value.name;
      if name == "" {
        name := DefaultKeyName(CountFor(keys, pid));
      }
      var id := nextId;
      keys := keys[id := ApiKey(pid, req.value.apiKey, name, true, 0)];
      nextId := nextId + 1;
      status, added := 200, Some(AddedKey(id, pid, name, true));
    }

    /**
     * UpdateAPIKey: 400 for a bad id or body; otherwise the given fields are
     * written (a missing id matches no row) and the answer is 200 even when
     * no field was given.
     */
    method UpdateAPIKey(keyParam: string, req: Option<ApiKeyUpdate>) returns (status: int)
      requires Valid()
      modifies this
      ensures Valid()
      ensures status == (if Atoi(keyParam).None? || req.None? then 400 else 200)
      ensures nextId == old(nextId)
      ensures status == 400 ==> keys == old(keys)
      ensures status == 200 ==>
        var id := Atoi(keyParam).value;
        keys == if id in old(keys) then old(keys)[id := ApplyKeyUpdate(old(keys)[id], req.value)] else old(keys)
    {
      var parsed := Atoi(keyParam);
      if parsed.None? || req.None? {
        return 400;
      }
      var id := parsed.value;
      if KeyAssignments(req.value) != [] && id in keys {
        keys := keys[id := ApplyKeyUpdate(keys[id], req.value)];
      }
      status := 200;
    }

    /** DeleteAPIKey: 400 for a bad id, else the row is gone (deleting a missing id still answers 200). */
    method DeleteAPIKey(keyParam: string) returns (status: int)
      requires Valid()
      modifies this
      ensures Valid()
      ensures status == (if Atoi(keyParam).None? then 400 else 200)
      ensures nextId == old(nextId)
      ensures status == 400 ==> keys == old(keys)
      ensures status == 200 ==> keys == old(keys) - {Atoi(keyParam).value}
    {
      var parsed := Atoi(keyParam);
      if parsed.None? {
        return 400;
      }
      keys := keys - {parsed.value};
      status := 200;
    }
  }
}
