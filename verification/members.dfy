/**
 Synthetic chat members built from an untrusted key/value payload (`FakeMember`),
 and the seed set that wraps two of them (`clean_seeds`). Every field is read
 with a default except `joined_at`, which goes through `datetime.fromtimestamp`
 and so must be a number; its fallback is the STRING "0", which
 `fromtimestamp` rejects, so a payload without `joined_at` cannot be built.
 */
module Members {
  import opened Values
  import opened Outcomes

  /** What building a member can raise. */
  datatype Fault =
    | NoGetMethod    // AttributeError: the payload is not a mapping, so it has no `get`
    | NotATimestamp  // TypeError: `fromtimestamp` was handed something that is not a number

  /**
   The fields of a synthetic member. Each field keeps whatever JSON value the
   payload stored, as the source does; `joinedAt` is seconds since the epoch.
   */
  datatype Member = Member(
    name: Value,
    createdAt: Value,
    id: Value,
    color: Value,
    displayName: Value,
    avatarUrl: Value,
    discriminator: Value,
    joinedAt: int,
    mention: Value,
    bot: bool)

  /** The engine's member adapter around a synthetic member. */
  datatype Seed = MemberAdapter(member: Member)

  type SeedSet = map<string, Seed>

  const EmptyText: Value := Str("")
  const DefaultDiscriminator: Value := Str("0001")
  const JoinedAtFallback: Value := Str("0")

  /** The payload keys the member reads; every other key is ignored. */
  const MemberKeys: set<string> :=
    {"username", "user", "id", "color", "name", "avatar", "discriminator", "joined_at", "mention"}

  /** The values `datetime.fromtimestamp` accepts here: numbers, and booleans, which Python counts as 0 and 1. */
  predicate IsTimestamp(v: Value) {
    v.Num? || v.Bool?
  }

  /** `datetime.fromtimestamp` on a JSON value, as whole seconds since the epoch. */
  function FromTimestamp(v: Value): (r: Result<int, Fault>)
    ensures r.Ok? <==> IsTimestamp(v)
    ensures v.Num? ==> r == Ok(v.n)
    ensures v.Bool? ==> r.Ok? && r.value == (if v.b then 1 else 0)
    ensures r.Err? ==> r.error == NotATimestamp
  {
    match v
    case Num(n) => Ok(n)
    case Bool(b) => Ok(if b then 1 else 0)
    case _ => Err(NotATimestamp)
  }

  /** The payloads a member can be built from: a mapping whose `joined_at` is present and numeric. */
  predicate Buildable(payload: Value) {
    payload.Obj? && "joined_at" in payload.fields && IsTimestamp(payload.fields["joined_at"])
  }

  /** `FakeMember.__init__`: a member from a payload, or the error the constructor raises. */
  function MakeMember(payload: Value): (r: Result<Member, Fault>)
    ensures r.Ok? <==> Buildable(payload)
    ensures !payload.Obj? ==> r == Err(NoGetMethod)
    ensures payload.Obj? && r.Err? ==> r.error == NotATimestamp
    ensures r.Ok? ==> !r.value.bot
    ensures r.Ok? ==> r.value.joinedAt == FromTimestamp(payload.fields["joined_at"]).value
  {
    if !payload.Obj? then Err(NoGetMethod)
    else
      var user := payload.fields;
      var joined := FromTimestamp(Get(user, "joined_at", JoinedAtFallback));
      if joined.Err? then Err(joined.error)
      else
        Ok(Member(
          name := Get(user, "username", EmptyText),
          createdAt := Get(user, "user", Null),
          id := Get(user, "id", EmptyText),
          color := Get(user, "color", EmptyText),
          displayName := Get(user, "name", EmptyText),
          avatarUrl := Get(user, "avatar", EmptyText),
          discriminator := Get(user, "discriminator", DefaultDiscriminator),
          joinedAt := joined.value,
          mention := Get(user, "mention", EmptyText),
          bot := false))
  }

  /**
   Every key the member reads is copied when present and falls back to its
   default when absent: "" for the text fields, "0001" for the discriminator,
   nothing for `created_at`.
   */
  lemma MemberDefaults(user: map<string, Value>)
    requires Buildable(Obj(user))
    ensures var m := MakeMember(Obj(user)).value;
      && ("username" in user ==> m.name == user["username"])
      && ("id" in user ==> m.id == user["id"])
      && ("color" in user ==> m.color == user["color"])
      && ("name" in user ==> m.displayName == user["name"])
      && ("avatar" in user ==> m.avatarUrl == user["avatar"])
      && ("mention" in user ==> m.mention == user["mention"])
      && ("discriminator" in user ==> m.discriminator == user["discriminator"])
      && ("user" in user ==> m.createdAt == user["user"])
      && ("username" !in user ==> m.name == Str(""))
      && ("id" !in user ==> m.id == Str(""))
      && ("color" !in user ==> m.color == Str(""))
      && ("name" !in user ==> m.displayName == Str(""))
      && ("avatar" !in user ==> m.avatarUrl == Str(""))
      && ("mention" !in user ==> m.mention == Str(""))
      && ("discriminator" !in user ==> m.discriminator == Str("0001"))
      && ("user" !in user ==> m.createdAt == Null)
  {
  }

  /**
   The display name comes from key "name" and the creation time from key "user":
   the member's `name` and `displayName` are independent, and `username` feeds
   only `name`.
   */
  lemma MemberKeySources(user: map<string, Value>, v: Value)
    requires Buildable(Obj(user))
    ensures var m := MakeMember(Obj(user)).value;
      var m' := MakeMember(Obj(user["username" := v])).value;
      && ("name" in user ==> m.displayName == user["name"])
      && ("user" in user ==> m.createdAt == user["user"])
      && m'.name == v
      && m' == m.(name := v)
  {
  }

  /** Keys outside `MemberKeys` never change the outcome. */
  lemma MemberIgnoresOtherKeys(user: map<string, Value>, k: string, v: Value)
    requires k !in MemberKeys
    ensures MakeMember(Obj(user[k := v])) == MakeMember(Obj(user))
  {
    var user' := user[k := v];
    assert forall key :: key in MemberKeys ==> Get(user', key, Null) == Get(user, key, Null);
    assert forall key :: key in MemberKeys ==> Get(user', key, EmptyText) == Get(user, key, EmptyText);
    assert Get(user', "discriminator", DefaultDiscriminator) == Get(user, "discriminator", DefaultDiscriminator);
    assert Get(user', "joined_at", JoinedAtFallback) == Get(user, "joined_at", JoinedAtFallback);
  }

  /** The string fallback of `joined_at` is rejected: an empty payload, or one without `joined_at`, raises. */
  lemma MissingJoinedAtFails(user: map<string, Value>)
    ensures "joined_at" !in user ==> MakeMember(Obj(user)) == Err(NotATimestamp)
    ensures MakeMember(Obj(map[])) == Err(NotATimestamp)
  {
  }

  /**
   `clean_seeds`: members for the "user" and "target" sub-payloads, wrapped in
   the member adapter. The "user" entry is built first, so its error wins.
   */
  function CleanSeeds(seeds: Value): (r: Result<SeedSet, Fault>)
    ensures r.Ok? <==>
      seeds.Obj? && Buildable(Get(seeds.fields, "user", Null)) && Buildable(Get(seeds.fields, "target", Null))
    ensures r.Ok? ==> r.value.Keys == {"user", "target"}
    ensures r.Ok? ==>
      && r.value["user"].member == MakeMember(seeds.fields["user"]).value
      && r.value["target"].member == MakeMember(seeds.fields["target"]).value
    ensures !seeds.Obj? ==> r == Err(NoGetMethod)
    ensures seeds.Obj? && MakeMember(Get(seeds.fields, "user", Null)).Err? ==>
      r == Err(MakeMember(Get(seeds.fields, "user", Null)).error)
    ensures (seeds.Obj? && MakeMember(Get(seeds.fields, "user", Null)).Ok?
             && MakeMember(Get(seeds.fields, "target", Null)).Err?) ==>
      r == Err(MakeMember(Get(seeds.fields, "target", Null)).error)
  {
    if !seeds.Obj? then Err(NoGetMethod)
    else
      var user := MakeMember(Get(seeds.fields, "user", Null));
      if user.Err? then Err(user.error)
      else
        var target := MakeMember(Get(seeds.fields, "target", Null));
        if target.Err? then Err(target.error)
        else Ok(map["user" := MemberAdapter(user.value), "target" := MemberAdapter(target.value)])
  }

  /** A missing sub-payload is `None`, which has no `get`: it is never defaulted to an empty member. */
  lemma MissingSubPayloadFails(seeds: map<string, Value>)
    ensures "user" !in seeds ==> CleanSeeds(Obj(seeds)) == Err(NoGetMethod)
    ensures "target" !in seeds && Buildable(Get(seeds, "user", Null)) ==> CleanSeeds(Obj(seeds)) == Err(NoGetMethod)
  {
  }
}
