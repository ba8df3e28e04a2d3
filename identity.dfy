/** The invoking user's identity, as `RecipeBuilder.__init__` collects it into `user_info`. */
module Identity {
  import opened Wrappers
  import opened Text

  /** uid, gid and the names the password and group databases give for them. */
  datatype UserInfo = UserInfo(uid: nat, gid: nat, groupname: string, username: string)

  /** The four keys of `user_info`. */
  datatype Field = Username | Groupname | Uid | Gid

  function Key(f: Field): string {
    match f
    case Username => "username"
    case Groupname => "groupname"
    case Uid => "uid"
    case Gid => "gid"
  }

  /** The field a key names, if it is one of the four. */
  function FieldNamed(key: string): (r: Option<Field>)
    ensures r.Some? ==> Key(r.value) == key
    ensures r.None? ==> forall f :: Key(f) != key
  {
    if key == "username" then Some(Username)
    else if key == "groupname" then Some(Groupname)
    else if key == "uid" then Some(Uid)
    else if key == "gid" then Some(Gid)
    else
      None
  }

  /** The text `str.format` substitutes for a field: the name itself, or the number in decimal. */
  function Value(info: UserInfo, f: Field): string {
    match f
    case Username => info.username
    case Groupname => info.groupname
    case Uid => NatToString(info.uid)
    case Gid => NatToString(info.gid)
  }
}
