/** Telegram entities as the service sees them, and the two pure helpers
    that classify them and name them (app/telegram_service.py). */
module Entities {
  import opened Common

  /** The concrete Telethon class of an entity, with the flag the
      classification reads from it. */
  datatype Kind =
    | UserKind(bot: bool)             // telethon.tl.types.User, `bot` flag
    | ChatKind                        // telethon.tl.types.Chat (basic group)
    | ChannelKind(broadcast: bool)    // telethon.tl.types.Channel, `broadcast` flag
    | OtherKind                       // any other entity class

  /** An entity as a record of the attributes the service inspects. `None`
      stands for an attribute the entity does not have (or that is `None`);
      for `title` it means `hasattr(entity, 'title')` is false. */
  datatype Entity = Entity(
    id: int,
    kind: Kind,
    title: Option<string>,
    firstName: Option<string>,
    lastName: Option<string>,
    username: Option<string>,
    participantsCount: Option<int>)

  datatype DialogType = Group | Channel | User | Bot | Unknown

  /** `_get_dialog_type`: an exhaustive case split over the entity's class. */
  function DialogTypeOf(e: Entity): (t: DialogType)
    ensures t == User <==> e.kind == UserKind(false)
    ensures t == Bot <==> e.kind == UserKind(true)
    ensures t == Channel <==> e.kind == ChannelKind(true)
    ensures t == Group <==> e.kind == ChatKind || e.kind == ChannelKind(false)
    ensures t == Unknown <==> e.kind == OtherKind
  {
    match e.kind
    case UserKind(bot) => if bot then Bot else User
    case ChatKind => Group
    case ChannelKind(broadcast) => if broadcast then Channel else Group
    case OtherKind => Unknown
  }

  /** Python's `" ".join(parts)`. */
  function JoinWords(parts: seq<string>): (r: string)
    ensures parts == [] ==> r == ""
    ensures |parts| > 0 ==> |parts[0]| <= |r| && r[..|parts[0]|] == parts[0]
    ensures |parts| == 1 ==> r == parts[0]
    ensures |parts| == 2 ==> r == parts[0] + " " + parts[1]
  {
    if |parts| == 0 then ""
    else if |parts| == 1 then parts[0]
    else parts[0] + " " + JoinWords(parts[1..])
  }

  /** The non-empty first and last names of an entity, in that order. */
  function NameParts(e: Entity): seq<string> {
    (if Truthy(e.firstName) then [e.firstName.value] else [])
    + (if Truthy(e.lastName) then [e.lastName.value] else [])
  }

  /** `_get_display_name`: the title if the entity has one; otherwise its
      non-empty first and last names joined by a space; otherwise
      `@username`; otherwise "Unknown". */
  function DisplayName(e: Entity): (r: string)
    ensures e.title.Some? ==> r == e.title.value
    ensures e.title.None? && Truthy(e.firstName) && Truthy(e.lastName) ==>
              r == e.firstName.value + " " + e.lastName.value
    ensures e.title.None? && Truthy(e.firstName) && !Truthy(e.lastName) ==> r == e.firstName.value
    ensures e.title.None? && !Truthy(e.firstName) && Truthy(e.lastName) ==> r == e.lastName.value
    ensures e.title.None? && !Truthy(e.firstName) && !Truthy(e.lastName) ==>
              r == if Truthy(e.username) then "@" + e.username.value else "Unknown"
  {
    if e.title.Some? then e.title.value
    else
      var parts := NameParts(e);
      if parts != [] then JoinWords(parts)
      else if Truthy(e.username) then "@" + e.username.value
      else "Unknown"
  }

  /** A display name is empty only when the entity carries an empty title:
      every fallback of the preference chain yields a non-empty name. */
  lemma DisplayNameEmptyOnlyForEmptyTitle(e: Entity)
    ensures DisplayName(e) == "" <==> e.title == Some("")
  {
  }
}
