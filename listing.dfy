/** What `get_dialogs` and `get_messages_senders` compute, as functions of
    the sequences the Telethon iterators yield (app/telegram_service.py). */
module Listing {
  import opened Common
  import opened Entities

  // -------------------------------------------------------------- dialogs

  /** One item of `iter_dialogs`: the dialog's id, its name and its entity. */
  datatype Dialog = Dialog(id: int, name: string, entity: Entity)

  /** `DialogInfo`. */
  datatype DialogInfo = DialogInfo(
    id: int,
    name: string,
    dialogType: DialogType,
    username: Option<string>,
    membersCount: Option<int>)

  /** The `DialogInfo` built for a dialog that is kept: an empty dialog name
      becomes "Unknown"; username and member count are the entity's own. */
  function InfoOf(d: Dialog): (r: DialogInfo)
    ensures r.id == d.id && r.dialogType == DialogTypeOf(d.entity)
    ensures d.name == "" ==> r.name == "Unknown"
    ensures d.name != "" ==> r.name == d.name
    ensures r.username == d.entity.username && r.membersCount == d.entity.participantsCount
  {
    DialogInfo(
      d.id,
      if d.name == "" then "Unknown" else d.name,
      DialogTypeOf(d.entity),
      d.entity.username,
      d.entity.participantsCount)
  }

  predicate IsListed(d: Dialog) {
    DialogTypeOf(d.entity) != User
  }

  /** The dialogs `get_dialogs` returns: every dialog that is not a private
      chat with a (non-bot) user, in iteration order. */
  function ListedDialogs(ds: seq<Dialog>): (r: seq<DialogInfo>)
    ensures |r| <= |ds|
    ensures forall k :: 0 <= k < |r| ==> r[k].dialogType != User
  {
    if ds == [] then []
    else
      var init, last := ds[..|ds| - 1], ds[|ds| - 1];
      ListedDialogs(init) + (if IsListed(last) then [InfoOf(last)] else [])
  }

  /** Every listed entry is the info of a dialog that is not a user chat. */
  lemma {:induction false} ListedDialogsSound(ds: seq<Dialog>, k: int)
    requires 0 <= k < |ListedDialogs(ds)|
    ensures exists i :: 0 <= i < |ds| && IsListed(ds[i]) && ListedDialogs(ds)[k] == InfoOf(ds[i])
  {
    var init := ds[..|ds| - 1];
    if k < |ListedDialogs(init)| {
      ListedDialogsSound(init, k);
      var i :| 0 <= i < |init| && IsListed(init[i]) && ListedDialogs(init)[k] == InfoOf(init[i]);
      assert ds[i] == init[i];
    } else {
      assert ListedDialogs(ds)[k] == InfoOf(ds[|ds| - 1]);
    }
  }

  /** Filtering keeps the iteration order: it distributes over concatenation. */
  lemma {:induction false} ListedDialogsAppend(a: seq<Dialog>, b: seq<Dialog>)
    ensures ListedDialogs(a + b) == ListedDialogs(a) + ListedDialogs(b)
    decreases |b|
  {
    if b == [] {
      assert a + b == a;
    } else {
      var b', x := b[..|b| - 1], b[|b| - 1];
      assert (a + b)[..|a + b| - 1] == a + b';
      assert (a + b)[|a + b| - 1] == x;
      ListedDialogsAppend(a, b');
    }
  }

  /** Nothing but user dialogs is dropped. */
  lemma {:induction false} ListedDialogsComplete(ds: seq<Dialog>, i: int)
    requires 0 <= i < |ds| && IsListed(ds[i])
    ensures InfoOf(ds[i]) in ListedDialogs(ds)
  {
    ListedDialogsAppend(ds[..i], ds[i..]);
    assert ds[..i] + ds[i..] == ds;
    ListedDialogsAppend([ds[i]], ds[i + 1..]);
    assert [ds[i]] + ds[i + 1..] == ds[i..];
    assert ListedDialogs([ds[i]]) == [InfoOf(ds[i])] by {
      assert [ds[i]][..0] == [];
    }
  }

  // -------------------------------------------------------------- senders

  /** One item of `iter_messages`: `sender_id` and the resolved `sender`. */
  datatype Message = Message(senderId: Option<int>, sender: Option<Entity>)

  /** `SenderInfo`. */
  datatype SenderInfo = SenderInfo(id: int, name: string, username: Option<string>, isBot: bool)

  /** The `SenderInfo` of a resolved sender: only a bot user is a bot. */
  function SenderInfoOf(e: Entity): (r: SenderInfo)
    ensures r.id == e.id && r.name == DisplayName(e) && r.username == e.username
    ensures r.isBot <==> e.kind == UserKind(true)
  {
    SenderInfo(e.id, DisplayName(e), e.username, e.kind.UserKind? && e.kind.bot)
  }

  /** `message.sender_id` is truthy: present and not 0. */
  predicate HasSenderId(m: Message) {
    m.senderId.Some? && m.senderId.value != 0
  }

  /** The `seen_ids` set after the messages `ms`. */
  function SeenIds(ms: seq<Message>): set<int> {
    if ms == [] then {}
    else
      var init, last := ms[..|ms| - 1], ms[|ms| - 1];
      SeenIds(init) + (if HasSenderId(last) then {last.senderId.value} else {})
  }

  /** Message `i` is the first one carrying its sender id. */
  predicate FirstOfSender(ms: seq<Message>, i: int)
    requires 0 <= i < |ms|
  {
    HasSenderId(ms[i]) && ms[i].senderId.value !in SeenIds(ms[..i])
  }

  /** The senders `get_messages_senders` collects from `ms`: one per sender
      id, at its first message, when that message's sender is resolved. */
  function UniqueSenders(ms: seq<Message>): (r: seq<SenderInfo>)
    ensures |r| <= |ms|
  {
    if ms == [] then []
    else
      var init, last := ms[..|ms| - 1], ms[|ms| - 1];
      assert ms[..|ms| - 1] == init;
      UniqueSenders(init)
        + (if FirstOfSender(ms, |ms| - 1) && last.sender.Some? then [SenderInfoOf(last.sender.value)] else [])
  }

  /** Every collected sender comes from the first message of its sender id
      whose sender is resolved; at most one entry per message. */
  lemma {:induction false} UniqueSendersSound(ms: seq<Message>, k: int)
    requires 0 <= k < |UniqueSenders(ms)|
    ensures exists i :: 0 <= i < |ms| && FirstOfSender(ms, i) && ms[i].sender.Some?
                        && UniqueSenders(ms)[k] == SenderInfoOf(ms[i].sender.value)
  {
    var init := ms[..|ms| - 1];
    if k < |UniqueSenders(init)| {
      UniqueSendersSound(init, k);
      var i :| 0 <= i < |init| && FirstOfSender(init, i) && init[i].sender.Some?
               && UniqueSenders(init)[k] == SenderInfoOf(init[i].sender.value);
      assert init[..i] == ms[..i];
      assert FirstOfSender(ms, i);
    } else {
      assert FirstOfSender(ms, |ms| - 1);
    }
  }

  /** Every first message of a sender id whose sender is resolved contributes. */
  lemma {:induction false} UniqueSendersComplete(ms: seq<Message>, i: int)
    requires 0 <= i < |ms| && FirstOfSender(ms, i) && ms[i].sender.Some?
    ensures SenderInfoOf(ms[i].sender.value) in UniqueSenders(ms)
  {
    UniqueSendersPrefix(ms, i + 1);
    var p := ms[..i + 1];
    assert p[..|p| - 1] == ms[..i];
    assert FirstOfSender(p, |p| - 1);
    assert UniqueSenders(p)[|UniqueSenders(p)| - 1] == SenderInfoOf(ms[i].sender.value);
  }

  /** First-seen order: the senders collected from a prefix of the messages
      are a prefix of those collected from all of them. This is also the
      partial result returned when the iteration fails part-way. */
  lemma {:induction false} UniqueSendersPrefix(ms: seq<Message>, n: int)
    requires 0 <= n <= |ms|
    ensures UniqueSenders(ms[..n]) <= UniqueSenders(ms)
    decreases |ms|
  {
    if n < |ms| {
      var init := ms[..|ms| - 1];
      assert init[..n] == ms[..n];
      UniqueSendersPrefix(init, n);
    } else {
      assert ms[..n] == ms;
    }
  }

  /** The messages' sender ids agree with the ids of their resolved senders. */
  predicate IdsAgree(ms: seq<Message>) {
    forall i :: 0 <= i < |ms| && HasSenderId(ms[i]) && ms[i].sender.Some? ==>
      ms[i].sender.value.id == ms[i].senderId.value
  }

  lemma {:induction false} UniqueSendersIdsSeen(ms: seq<Message>)
    requires IdsAgree(ms)
    ensures forall k :: 0 <= k < |UniqueSenders(ms)| ==> UniqueSenders(ms)[k].id in SeenIds(ms)
  {
    if ms != [] {
      var init := ms[..|ms| - 1];
      assert IdsAgree(init) by {
        assert forall i :: 0 <= i < |init| ==> init[i] == ms[i];
      }
      UniqueSendersIdsSeen(init);
    }
  }

  /** When message sender ids agree with the resolved senders' ids, the
      collected senders have pairwise distinct ids. */
  lemma {:induction false} UniqueSendersDistinct(ms: seq<Message>)
    requires IdsAgree(ms)
    ensures forall p, q :: 0 <= p < q < |UniqueSenders(ms)| ==> UniqueSenders(ms)[p].id != UniqueSenders(ms)[q].id
  {
    if ms != [] {
      var init := ms[..|ms| - 1];
      assert IdsAgree(init) by {
        assert forall i :: 0 <= i < |init| ==> init[i] == ms[i];
      }
      UniqueSendersDistinct(init);
      UniqueSendersIdsSeen(init);
    }
  }

  // ------------------------------------------------------ the iteration

  /** The messages `iter_messages(chat_id, limit=limit)` yields from the
      chat's messages `available` (newest first): none for a limit of 0 or
      less, otherwise at most `limit`. */
  function Window(available: seq<Message>, limit: int): (w: seq<Message>)
    ensures w <= available
    ensures |w| <= if limit <= 0 then 0 else limit
    ensures |w| == if limit <= 0 then 0 else Min(limit, |available|)
  {
    available[..if limit <= 0 then 0 else Min(limit, |available|)]
  }

  /** The messages delivered before the iteration raised at position
      `failAt` (all of them when it does not raise). */
  function Delivered(ms: seq<Message>, failAt: Option<nat>): (d: seq<Message>)
    ensures d <= ms
    ensures failAt.None? ==> d == ms
    ensures |d| == if failAt.None? then |ms| else Min(failAt.value, |ms|)
  {
    match failAt
    case None => ms
    case Some(n) => ms[..Min(n, |ms|)]
  }
}
