/**
 * The roster side of the chat: a user's profile, the avatar URL derived from
 * the user's name, and the roster built from the names of a users frame.
 */
module Profiles {
  import opened Wrappers

  /** A connected user as the roster shows it. */
  datatype UserProfile = UserProfile(name: string, avatar: string)

  const AvatarPrefix := "https://avatars.dicebear.com/api/adventurer-neutral/"
  const AvatarSuffix := ".svg"

  /** The avatar image of a user: the name placed into a fixed URL template. */
  function AvatarUrl(name: string): (url: string)
    ensures |url| == |AvatarPrefix| + |name| + |AvatarSuffix|
    ensures url[..|AvatarPrefix|] == AvatarPrefix
    ensures url[|AvatarPrefix|..|AvatarPrefix| + |name|] == name
    ensures url[|AvatarPrefix| + |name|..] == AvatarSuffix
  {
    AvatarPrefix + name + AvatarSuffix
  }

  /** The name an avatar URL was made from, if it follows the template. */
  function NameOfAvatar(url: string): (r: Option<string>)
    ensures r.Some? ==> AvatarUrl(r.value) == url
  {
    if |url| >= |AvatarPrefix| + |AvatarSuffix|
       && url[..|AvatarPrefix|] == AvatarPrefix
       && url[|url| - |AvatarSuffix|..] == AvatarSuffix
    then
      var name := url[|AvatarPrefix|..|url| - |AvatarSuffix|];
      assert url == AvatarPrefix + name + AvatarSuffix by {
        assert url == url[..|AvatarPrefix|] + name + url[|url| - |AvatarSuffix|..];
      }
      Some(name)
    else None
  }

  /** The name can be read back from its avatar URL. */
  lemma AvatarNameRecovered(name: string)
    ensures NameOfAvatar(AvatarUrl(name)) == Some(name)
  {
  }

  /** Equal names give equal avatars, and different names different ones. */
  lemma AvatarInjective(a: string, b: string)
    ensures AvatarUrl(a) == AvatarUrl(b) <==> a == b
  {
  }

  /** The profile of the user with the given name. */
  function Profile(name: string): UserProfile
  {
    UserProfile(name, AvatarUrl(name))
  }

  /**
   * The roster a users frame installs: one profile per name, in order,
   * duplicates kept.
   */
  function Roster(names: seq<string>): (r: seq<UserProfile>)
    ensures |r| == |names|
    ensures forall i :: 0 <= i < |names| ==> r[i].name == names[i] && r[i].avatar == AvatarUrl(names[i])
  {
    if names == [] then [] else [Profile(names[0])] + Roster(names[1..])
  }

  /** The names of a roster, in roster order. */
  function Names(users: seq<UserProfile>): (r: seq<string>)
    ensures |r| == |users|
    ensures forall i :: 0 <= i < |users| ==> r[i] == users[i].name
  {
    if users == [] then [] else [users[0].name] + Names(users[1..])
  }

  /** The roster keeps exactly the names it was built from, in order, duplicates included. */
  lemma RosterNames(names: seq<string>)
    ensures Names(Roster(names)) == names
  {
  }

  /** Every avatar in a roster names its own user. */
  lemma RosterAvatarsName(names: seq<string>)
    ensures forall p :: p in Roster(names) ==> NameOfAvatar(p.avatar) == Some(p.name)
  {
  }
}
