/**
 * Transcript entries and their stored JSON form, as the chat client keeps
 * them: `{ role, content, timestamp, id }`.
 */
module Messages {
  import opened Wrappers
  import opened Json

  /** The three roles the client stores; model replies are stored as `agent`. */
  datatype Role = User | Agent | System

  function RoleName(r: Role): (name: string)
    ensures RoleOf(name) == Some(r)
  {
    match r
    case User => "user"
    case Agent => "agent"
    case System => "system"
  }

  /** The stored role names `['user', 'agent', 'system']`; anything else is unknown. */
  function RoleOf(name: string): (r: Option<Role>)
    ensures r.Some? <==> name == "user" || name == "agent" || name == "system"
  {
    if name == "user" then Some(User)
    else if name == "agent" then Some(Agent)
    else if name == "system" then Some(System)
    else None
  }

  /** An in-memory transcript entry. `id` is absent on entries loaded without one. */
  datatype Message = Message(role: Role, content: string, timestamp: int, id: Option<string>)

  /**
   * `isValidMessage`: a truthy object whose `role` is one of the three role
   * names, whose `content` is a string and whose `timestamp` is a number.
   */
  predicate IsValidMessage(v: Raw): (ok: bool)
    ensures ok ==> v.Object? && Get(v.fields, "role").Some? && Get(v.fields, "role").value.Str?
                   && Get(v.fields, "role").value.s in {"user", "agent", "system"}
    ensures ok ==> Get(v.fields, "content").Some? && Get(v.fields, "content").value.Str?
    ensures ok ==> Get(v.fields, "timestamp").Some? && Get(v.fields, "timestamp").value.Num?
  {
    && v.Object?
    && var role := Get(v.fields, "role");
    && role.Some? && role.value.Str? && RoleOf(role.value.s).Some?
    && var content := Get(v.fields, "content");
    && content.Some? && content.value.Str?
    && var stamp := Get(v.fields, "timestamp");
    && stamp.Some? && stamp.value.Num?
  }

  /**
   * A stored value is valid exactly when its `role`, `content` and
   * `timestamp` members are what the client writes for some entry.
   */
  lemma ValidIffWritable(v: Raw)
    ensures IsValidMessage(v) <==> v.Object? && exists r: Role, c: string, t: int ::
              && Get(v.fields, "role") == Some(Str(RoleName(r)))
              && Get(v.fields, "content") == Some(Str(c))
              && Get(v.fields, "timestamp") == Some(Num(t))
  {
    if IsValidMessage(v) {
      var r := RoleOf(Get(v.fields, "role").value.s).value;
      assert Get(v.fields, "role") == Some(Str(RoleName(r)));
    }
  }

  /** The entry a stored value stands for, when it passes validation. */
  function Decode(v: Raw): (r: Option<Message>)
    ensures r.Some? <==> IsValidMessage(v)
    ensures r.Some? ==> Get(v.fields, "content") == Some(Str(r.value.content))
                        && Get(v.fields, "timestamp") == Some(Num(r.value.timestamp))
                        && Get(v.fields, "role") == Some(Str(RoleName(r.value.role)))
  {
    if !IsValidMessage(v) then None
    else
      var id := Get(v.fields, "id");
      Some(Message(
        RoleOf(Get(v.fields, "role").value.s).value,
        Get(v.fields, "content").value.s,
        Get(v.fields, "timestamp").value.n,
        if id.Some? && id.value.Str? then Some(id.value.s) else None))
  }

  /** `JSON.stringify` of one entry; an absent `id` is left out, as `undefined` is. */
  function Encode(m: Message): (v: Raw)
    ensures v.Object? && |v.fields| == if m.id.Some? then 4 else 3
    ensures forall i, j :: 0 <= i < j < |v.fields| ==> v.fields[i].key != v.fields[j].key
  {
    var base := [Field("role", Str(RoleName(m.role))), Field("content", Str(m.content)),
                 Field("timestamp", Num(m.timestamp))];
    var fs := if m.id.Some? then base + [Field("id", Str(m.id.value))] else base;
    assert |fs[0].key| == 4 && |fs[1].key| == 7 && |fs[2].key| == 9;
    assert m.id.Some? ==> |fs[3].key| == 2;
    Object(fs)
  }

  function EncodeAll(ms: seq<Message>): (vs: seq<Raw>)
    ensures |vs| == |ms|
    ensures forall i :: 0 <= i < |ms| ==> vs[i] == Encode(ms[i])
  {
    seq(|ms|, i requires 0 <= i < |ms| => Encode(ms[i]))
  }

  /** A key that occurs once is looked up to its one value. */
  lemma GetOnly(fs: seq<Field>, i: nat)
    requires i < |fs|
    requires forall j :: 0 <= j < |fs| && j != i ==> fs[j].key != fs[i].key
    ensures Get(fs, fs[i].key) == Some(fs[i].value)
  {
  }

  /** An object whose four members are known decodes to the entry they spell. */
  lemma DecodeFields(fs: seq<Field>, role: Role, content: string, timestamp: int, id: Option<string>)
    requires Get(fs, "role") == Some(Str(RoleName(role)))
    requires Get(fs, "content") == Some(Str(content))
    requires Get(fs, "timestamp") == Some(Num(timestamp))
    requires Get(fs, "id") == if id.Some? then Some(Str(id.value)) else None
    ensures Decode(Object(fs)) == Some(Message(role, content, timestamp, id))
  {
    assert IsValidMessage(Object(fs));
  }

  /** The three members every encoded entry has, each under its own key. */
  lemma BaseFields(m: Message) returns (base: seq<Field>)
    ensures base == [Field("role", Str(RoleName(m.role))), Field("content", Str(m.content)),
                     Field("timestamp", Num(m.timestamp))]
    ensures Encode(m) == Object(if m.id.Some? then base + [Field("id", Str(m.id.value))] else base)
    ensures forall i, j :: 0 <= i < j < |base| ==> base[i].key != base[j].key
    ensures forall i :: 0 <= i < |base| ==> base[i].key != "id"
  {
    base := [Field("role", Str(RoleName(m.role))), Field("content", Str(m.content)),
             Field("timestamp", Num(m.timestamp))];
    assert |base[0].key| == 4 && |base[1].key| == 7 && |base[2].key| == 9 && |"id"| == 2;
  }

  /** Every entry the client writes passes validation and reads back unchanged. */
  lemma DecodeEncode(m: Message)
    ensures IsValidMessage(Encode(m))
    ensures Decode(Encode(m)) == Some(m)
  {
    var base := BaseFields(m);
    if m.id.Some? {
      var fs := base + [Field("id", Str(m.id.value))];
      GetOnly(fs, 0);
      GetOnly(fs, 1);
      GetOnly(fs, 2);
      GetOnly(fs, 3);
      DecodeFields(fs, m.role, m.content, m.timestamp, m.id);
    } else {
      GetOnly(base, 0);
      GetOnly(base, 1);
      GetOnly(base, 2);
      DecodeFields(base, m.role, m.content, m.timestamp, m.id);
    }
  }
}
