/**
 * The rules the component's view applies to each history entry: the sender's
 * profile is looked up in the roster (rendering panics when there is none),
 * and a body ending in ".gif" is shown as an image, any other as text.
 */
module ChatView {
  import opened Wrappers
  import opened Protocol
  import opened Profiles

  /** The first roster profile whose name is `from`. */
  function FindSender(users: seq<UserProfile>, from: string): (r: Option<UserProfile>)
    ensures r.None? <==> forall i :: 0 <= i < |users| ==> users[i].name != from
    ensures r.Some? ==> r.value.name == from
    ensures r.Some? ==> exists i :: 0 <= i < |users| && users[i] == r.value &&
                                    forall k :: 0 <= k < i ==> users[k].name != from
  {
    if users == [] then None
    else if users[0].name == from then Some(users[0])
    else
      match FindSender(users[1..], from)
      case None => None
      case Some(p) =>
        var j :| 0 <= j < |users[1..]| && users[1..][j] == p &&
                 forall k :: 0 <= k < j ==> users[1..][k].name != from;
        assert users[j + 1] == p;
        Some(p)
  }

  /** Rust's `ends_with(".gif")`: a body classed as an image is some text followed by ".gif". */
  function IsGif(body: string): (r: bool)
    ensures r ==> |body| >= 4 && body == body[..|body| - 4] + ".gif"
  {
    |body| >= 4 && body[|body| - 4..] == ".gif"
  }

  /** Every text ending in ".gif" is classed as an image. */
  lemma GifSuffixIsGif(stem: string)
    ensures IsGif(stem + ".gif")
  {
  }

  /** How the body of a history entry is shown. */
  datatype Body = Image(src: string) | Paragraph(text: string)

  /** One rendered history entry: the sender's avatar, the sender's name and the body. */
  datatype Entry = Entry(avatar: string, from: string, body: Body)

  function RenderBody(message: string): (b: Body)
    ensures b.Image? <==> IsGif(message)
    ensures b == Image(message) || b == Paragraph(message)
  {
    if IsGif(message) then Image(message) else Paragraph(message)
  }

  /** One history entry; `None` where the roster lookup would panic. */
  function RenderEntry(users: seq<UserProfile>, m: MessageData): (r: Option<Entry>)
    ensures r.None? <==> forall i :: 0 <= i < |users| ==> users[i].name != m.from
    ensures r.Some? ==> r.value.from == m.from && r.value.body == RenderBody(m.message)
    ensures r.Some? ==> exists i :: 0 <= i < |users| && users[i].name == m.from && users[i].avatar == r.value.avatar
    ensures r.Some? ==> r.value.avatar == FindSender(users, m.from).value.avatar
  {
    match FindSender(users, m.from)
    case None => None
    case Some(p) => Some(Entry(p.avatar, m.from, RenderBody(m.message)))
  }

  /** The whole history, in order; `None` when any entry's sender is not in the roster. */
  function RenderHistory(users: seq<UserProfile>, messages: seq<MessageData>): (r: Option<seq<Entry>>)
    ensures r.Some? <==> forall k :: 0 <= k < |messages| ==> RenderEntry(users, messages[k]).Some?
    ensures r.Some? ==> |r.value| == |messages|
    ensures r.Some? ==> forall k :: 0 <= k < |messages| ==> RenderEntry(users, messages[k]) == Some(r.value[k])
  {
    if messages == [] then Some([])
    else
      match RenderEntry(users, messages[0])
      case None => None
      case Some(e) =>
        match RenderHistory(users, messages[1..])
        case None => None
        case Some(rest) => Some([e] + rest)
  }

  /** In a roster built from names, the lookup finds a name exactly when it was listed, with its own avatar. */
  lemma RosterLookup(names: seq<string>, from: string)
    ensures FindSender(Roster(names), from) == if from in names then Some(Profile(from)) else None
  {
  }

  /**
   * With a roster built from names that include every sender, the history
   * renders in full and each entry shows its sender's avatar.
   */
  lemma HistoryRendersWhenSendersListed(names: seq<string>, messages: seq<MessageData>)
    requires forall k :: 0 <= k < |messages| ==> messages[k].from in names
    ensures RenderHistory(Roster(names), messages).Some?
    ensures forall k :: 0 <= k < |messages| ==>
              RenderHistory(Roster(names), messages).value[k].avatar == AvatarUrl(messages[k].from)
  {
  }

  /** A message from a name the roster does not list makes the whole history fail to render. */
  lemma UnknownSenderPanics(names: seq<string>, messages: seq<MessageData>, k: nat)
    requires k < |messages| && messages[k].from !in names
    ensures RenderHistory(Roster(names), messages).None?
  {
  }
}
