/** Registration of push device tokens under two unique indexes: one row per device slot, one row per token. */
module DeviceTokens {
  import opened Common

  type RowId = int

  /** What a device is on one APNs environment and push type; a token is unique within the same pair. */
  datatype Channel = Channel(environment: string, pushType: string)
  datatype Slot = Slot(user: int, device: string, channel: Channel)
  datatype Row = Row(slot: Slot, token: string, bundle: string, active: bool)
  datatype Table = Table(rows: map<RowId, Row>, nextId: RowId)

  predicate HasSlot(t: Table, id: RowId, slot: Slot) {
    id in t.rows && t.rows[id].slot == slot
  }

  predicate HasToken(t: Table, id: RowId, channel: Channel, token: string) {
    id in t.rows && t.rows[id].slot.channel == channel && t.rows[id].token == token
  }

  /** Both unique indexes. */
  predicate Unique(t: Table) {
    && (forall i | i in t.rows :: i < t.nextId)
    && (forall i, j | i in t.rows && j in t.rows && t.rows[i].slot == t.rows[j].slot :: i == j)
    && (forall i, j | i in t.rows && j in t.rows
                      && t.rows[i].slot.channel == t.rows[j].slot.channel && t.rows[i].token == t.rows[j].token ::
             i == j)
  }

  ghost function BySlot(t: Table, slot: Slot): (id: Option<RowId>)
    ensures id.None? <==> forall i :: !HasSlot(t, i, slot)
    ensures id.Some? ==> HasSlot(t, id.value, slot)
  {
    if i :| HasSlot(t, i, slot) then Some(i) else None
  }

  ghost function ByToken(t: Table, channel: Channel, token: string): (id: Option<RowId>)
    ensures id.None? <==> forall i :: !HasToken(t, i, channel, token)
    ensures id.Some? ==> HasToken(t, id.value, channel, token)
  {
    if i :| HasToken(t, i, channel, token) then Some(i) else None
  }

  /** The device's own row takes the token and whoever else had it loses it; without a row of its own the device takes
      over the row that has the token; otherwise a row is created. */
  ghost function Register(t: Table, slot: Slot, token: string, bundle: string): Table {
    var mine := BySlot(t, slot);
    var holder := ByToken(t, slot.channel, token);
    var row := Row(slot, token, bundle, true);
    if mine.Some? then
      var kept := map i | i in t.rows && (i == mine.value || !HasToken(t, i, slot.channel, token)) :: t.rows[i];
      t.(rows := kept[mine.value := row])
    else if holder.Some? then t.(rows := t.rows[holder.value := row])
    else Table(t.rows[t.nextId := row], t.nextId + 1)
  }

  /** Registration never breaks an index; afterwards the token is registered once, for this device and active, and rows
      of other devices with other tokens are untouched. */
  lemma RegisterKeepsUnique(t: Table, slot: Slot, token: string, bundle: string)
    requires Unique(t)
    ensures var t2 := Register(t, slot, token, bundle);
            && Unique(t2)
            && (exists i :: HasSlot(t2, i, slot) && t2.rows[i] == Row(slot, token, bundle, true))
            && (forall i :: HasToken(t2, i, slot.channel, token) ==> HasSlot(t2, i, slot))
            && (forall i | i in t.rows && t.rows[i].slot != slot && !HasToken(t, i, slot.channel, token) ::
                  i in t2.rows && t2.rows[i] == t.rows[i])
  {
    var t2 := Register(t, slot, token, bundle);
    var mine, holder := BySlot(t, slot), ByToken(t, slot.channel, token);
    var at := if mine.Some? then mine.value else if holder.Some? then holder.value else t.nextId;
    forall i | i in t.rows && i != at
      ensures !HasSlot(t, i, slot) && (mine.None? ==> !HasToken(t, i, slot.channel, token)) {
      assert mine.None? ==> !HasSlot(t, i, slot);
      assert holder.None? ==> !HasToken(t, i, slot.channel, token);
    }
    assert HasSlot(t2, at, slot);
  }

  /** The device's row is the one it had, else the one that had the token, else a new one; no other row is new or
      changed. */
  lemma RegisterPlaces(t: Table, slot: Slot, token: string, bundle: string)
    requires Unique(t)
    ensures var t2 := Register(t, slot, token, bundle);
            && (forall i | i in t2.rows && t2.rows[i].slot != slot :: i in t.rows && t2.rows[i] == t.rows[i])
            && (forall i | HasSlot(t2, i, slot) ::
                  if exists j :: HasSlot(t, j, slot) then HasSlot(t, i, slot)
                  else if exists j :: HasToken(t, j, slot.channel, token) then HasToken(t, i, slot.channel, token)
                  else i == t.nextId)
  {
  }

  /** Registering the same token again changes nothing. */
  lemma RegisterIsIdempotent(t: Table, slot: Slot, token: string, bundle: string)
    requires Unique(t)
    ensures var t2 := Register(t, slot, token, bundle); Register(t2, slot, token, bundle) == t2
  {
    var t2 := Register(t, slot, token, bundle);
    RegisterKeepsUnique(t, slot, token, bundle);
    var at :| HasSlot(t2, at, slot) && t2.rows[at] == Row(slot, token, bundle, true);
    assert BySlot(t2, slot) == Some(at);
    forall i | HasToken(t2, i, slot.channel, token) ensures i == at {
      assert HasSlot(t2, i, slot);
    }
    assert Register(t2, slot, token, bundle).rows == t2.rows;
  }

  lemma OnlyRow(t: Table, slot: Slot, token: string, i: RowId)
    requires Unique(t)
    ensures HasSlot(t, i, slot) ==> BySlot(t, slot) == Some(i)
    ensures HasToken(t, i, slot.channel, token) ==> ByToken(t, slot.channel, token) == Some(i)
  {
  }

  // ---- the table changed in place ----

  class TokenTable {
    var rows: map<RowId, Row>
    var nextId: RowId

    function Value(): Table
      reads this
    {
      Table(rows, nextId)
    }

    constructor ()
      ensures Value() == Table(map[], 1)
    {
      rows, nextId := map[], 1;
    }

    method FindSlot(slot: Slot) returns (id: Option<RowId>)
      ensures id.None? ==> forall i :: !HasSlot(Value(), i, slot)
      ensures id.Some? ==> HasSlot(Value(), id.value, slot)
    {
      var todo := rows.Keys;
      while todo != {}
        invariant todo <= rows.Keys && forall i | i in rows && i !in todo :: rows[i].slot != slot
        decreases |todo|
      {
        Inhabited(todo);
        var i :| i in todo;
        if rows[i].slot == slot {
          return Some(i);
        }
        todo := todo - {i};
      }
      return None;
    }

    method FindToken(channel: Channel, token: string) returns (id: Option<RowId>)
      ensures id.None? ==> forall i :: !HasToken(Value(), i, channel, token)
      ensures id.Some? ==> HasToken(Value(), id.value, channel, token)
    {
      var todo := rows.Keys;
      while todo != {}
        invariant todo <= rows.Keys
        invariant forall i | i in rows && i !in todo :: !(rows[i].slot.channel == channel && rows[i].token == token)
        decreases |todo|
      {
        Inhabited(todo);
        var i :| i in todo;
        if rows[i].slot.channel == channel && rows[i].token == token {
          return Some(i);
        }
        todo := todo - {i};
      }
      return None;
    }

    /** registerTokenWithDB. */
    method RegisterToken(slot: Slot, token: string, bundle: string)
      requires Unique(Value())
      modifies this
      ensures Value() == Register(old(Value()), slot, token, bundle) && Unique(Value())
    {
      RegisterKeepsUnique(Value(), slot, token, bundle);
      ghost var before := Value();
      var mine := FindSlot(slot);
      if mine.Some? {
        OnlyRow(before, slot, token, mine.value);
        rows := map i | i in rows && !(rows[i].slot.channel == slot.channel && rows[i].token == token
                                       && i != mine.value) :: rows[i];
        rows := rows[mine.value := rows[mine.value].(token := token, bundle := bundle, active := true)];
        assert rows == Register(before, slot, token, bundle).rows;
        return;
      }
      var holder := FindToken(slot.channel, token);
      if holder.Some? {
        OnlyRow(before, slot, token, holder.value);
        assert BySlot(before, slot).None?;
        rows := rows[holder.value := rows[holder.value].(slot := slot, bundle := bundle, active := true)];
        return;
      }
      assert Value() == before && forall i :: !HasToken(before, i, slot.channel, token);
      assert BySlot(before, slot).None? && ByToken(before, slot.channel, token).None?;
      rows := rows[nextId := Row(slot, token, bundle, true)];
      nextId := nextId + 1;
    }
  }
}
