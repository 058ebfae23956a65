/**
 * The approval bot (server/src/modules/bot/bot.service.ts): administrators
 * page through PENDING accounts one at a time and confirm them (role USER) or
 * reject them (the account is deleted), singly or all at once. The Telegram
 * side is left out: a screen is the message text and the buttons, and a
 * button is the action it stands for, with its label and callback data.
 */
module Bot {
  import opened Base
  import opened JsStrings
  import Users
  import Tables

  // ------------------------------------------------------------ callbacks

  /** What a callback's data asks for. `ShowPage(None)` is a page number `parseInt` reads as NaN. */
  datatype Command =
    | ConfirmAll
    | RejectAll
    | ShowPage(page: Option<int>)
    | ConfirmOne(id: string)
    | RejectOne(id: string)

  /** `data.split('_')[1]` for data that starts with `word` and an underscore. */
  function SecondPiece(data: string, word: string): (piece: string)
    requires '_' !in word && StartsWith(data, word + "_")
    ensures piece == Split(data[|word| + 1..], '_')[0]
  {
    var rest := data[|word| + 1..];
    assert data == word + ['_'] + rest by {
      assert data[..|word| + 1] == word + "_";
    }
    SplitAfter(word, '_', rest);
    Split(data, '_')[1]
  }

  /**
   * The callback handler's dispatch: two independent tests for `add_all` and
   * `remove_all`, then one chain over the `page_`, `confirm_` and `reject_`
   * prefixes.
   */
  function ParseCallback(data: string): seq<Command>
  {
    (if data == "add_all" then [ConfirmAll] else [])
    + (if data == "remove_all" then [RejectAll] else [])
    + (if StartsWith(data, "page_") then [ShowPage(ParseInt(SecondPiece(data, "page")))]
       else if StartsWith(data, "confirm_") then [ConfirmOne(SecondPiece(data, "confirm"))]
       else if StartsWith(data, "reject_") then [RejectOne(SecondPiece(data, "reject"))]
       else [])
  }

  /** Every callback asks for at most one thing. */
  lemma AtMostOneCommand(data: string)
    ensures |ParseCallback(data)| <= 1
  {
    if data == "add_all" {
      assert !StartsWith(data, "page_") && !StartsWith(data, "confirm_") && !StartsWith(data, "reject_") by {
        assert data[0] == 'a';
      }
    } else if data == "remove_all" {
      assert !StartsWith(data, "page_") && !StartsWith(data, "confirm_") by {
        assert data[0] == 'r';
      }
      assert !StartsWith(data, "reject_") by {
        assert data[2] == 'm';
      }
    }
  }

  // -------------------------------------------------------------- screens

  /** The buttons the bot offers. */
  datatype Button =
    | ConfirmAllButton
    | RejectAllButton
    | ConfirmButton(id: string)
    | RejectButton(id: string)
    | PrevButton(page: nat)
    | NextButton(page: nat)

  function Label(b: Button): string
  {
    match b
    case ConfirmAllButton => "✅ Підтвердити всіх"
    case RejectAllButton => "❌ Відхилити всіх"
    case ConfirmButton(_) => "🟢 Підтвердити"
    case RejectButton(_) => "🔴 Відхилити"
    case PrevButton(_) => "⬅️ Попередня"
    case NextButton(_) => "➡️ Наступна"
  }

  /** The callback data a button sends. */
  function Data(b: Button): string
  {
    match b
    case ConfirmAllButton => "add_all"
    case RejectAllButton => "remove_all"
    case ConfirmButton(id) => "confirm_" + id
    case RejectButton(id) => "reject_" + id
    case PrevButton(p) => "page_" + NatToString(p)
    case NextButton(p) => "page_" + NatToString(p)
  }

  /** What pressing a button asks the bot to do. */
  function Action(b: Button): Command
  {
    match b
    case ConfirmAllButton => ConfirmAll
    case RejectAllButton => RejectAll
    case ConfirmButton(id) => ConfirmOne(id)
    case RejectButton(id) => RejectOne(id)
    case PrevButton(p) => ShowPage(Some(p))
    case NextButton(p) => ShowPage(Some(p))
  }

  /** An account id that survives `split('_')`: uuids never hold an underscore. */
  predicate Encodable(b: Button)
  {
    (b.ConfirmButton? || b.RejectButton?) ==> '_' !in b.id
  }

  /** Every button's callback data is parsed back into exactly the action the button stands for. */
  lemma ButtonRoundTrip(b: Button)
    requires Encodable(b)
    ensures ParseCallback(Data(b)) == [Action(b)]
  {
    match b
    case ConfirmAllButton => BulkButtonsRoundTrip();
    case RejectAllButton => BulkButtonsRoundTrip();
    case ConfirmButton(id) => ConfirmButtonRoundTrip(id);
    case RejectButton(id) => RejectButtonRoundTrip(id);
    case PrevButton(p) => PageButtonRoundTrip(p);
    case NextButton(p) => PageButtonRoundTrip(p);
  }

  /** `add_all` and `remove_all` are read back as the bulk actions. */
  lemma BulkButtonsRoundTrip()
    ensures ParseCallback("add_all") == [ConfirmAll]
    ensures ParseCallback("remove_all") == [RejectAll]
  {
    var add := "add_all";
    assert !StartsWith(add, "page_") && !StartsWith(add, "confirm_") && !StartsWith(add, "reject_") by {
      assert add[0] == 'a';
    }
    var remove := "remove_all";
    assert !StartsWith(remove, "page_") && !StartsWith(remove, "confirm_") by {
      assert remove[0] == 'r';
    }
    assert !StartsWith(remove, "reject_") by {
      assert remove[2] == 'm';
    }
  }

  /** `confirm_X` is read back as confirming X. */
  lemma ConfirmButtonRoundTrip(id: string)
    requires '_' !in id
    ensures ParseCallback("confirm_" + id) == [ConfirmOne(id)]
  {
    var data := "confirm_" + id;
    assert data[0] == 'c';
    assert data != "add_all" && data != "remove_all";
    assert !StartsWith(data, "page_") by {
      assert data[..5][0] == 'c';
    }
    assert StartsWith(data, "confirm_") by {
      assert data[..8] == "confirm_";
    }
    assert data[8..] == id;
    SplitWithout(id, '_');
    assert SecondPiece(data, "confirm") == id;
  }

  /** `reject_X` is read back as rejecting X. */
  lemma RejectButtonRoundTrip(id: string)
    requires '_' !in id
    ensures ParseCallback("reject_" + id) == [RejectOne(id)]
  {
    var data := "reject_" + id;
    assert data[0] == 'r' && data[2] == 'j';
    assert data != "add_all" && data != "remove_all";
    assert !StartsWith(data, "page_") by {
      assert data[..5][0] == 'r';
    }
    assert !StartsWith(data, "confirm_") by {
      if |data| >= 8 {
        assert data[..8][0] == 'r';
      }
    }
    assert StartsWith(data, "reject_") by {
      assert data[..7] == "reject_";
    }
    assert data[7..] == id;
    SplitWithout(id, '_');
    assert SecondPiece(data, "reject") == id;
  }

  /** `page_N` is read back as page N. */
  lemma PageButtonRoundTrip(p: nat)
    ensures ParseCallback("page_" + NatToString(p)) == [ShowPage(Some(p))]
  {
    var data := "page_" + NatToString(p);
    assert data[0] == 'p' && data[..5] == "page_" && data[5..] == NatToString(p);
    NoSeparatorInNumber(p, '_');
    SplitWithout(NatToString(p), '_');
    ParseIntNatToString(p);
  }

  /** What a screen shows: the message and the buttons, in order. */
  datatype Screen = Screen(message: string, buttons: seq<Button>)

  const NoPendingUsers: string := "Немає користувачів для підтвердження."

  /** A nullable column inside a template literal: `null` prints as "null". */
  function Text(field: Option<string>): string
  {
    match field
    case None => "null"
    case Some(s) => s
  }

  /** The lines of an account's card: a header, a blank line, four fields, and the empty tail. */
  function CardLines(page: nat, totalPages: nat, u: Users.User): seq<string>
  {
    [ "Запит " + NatToString(page) + " з " + NatToString(totalPages),
      "",
      "_Name_: *" + u.name + "*",
      "_Surname_: *" + Text(u.surname) + "*",
      "_Phone_: *" + u.phone + "*",
      "_Email_: *" + u.email + "*",
      "" ]
  }

  /** The fields of a card hold no line break. */
  predicate SingleLineFields(u: Users.User)
  {
    '\n' !in u.name && '\n' !in Text(u.surname) && '\n' !in u.phone && '\n' !in u.email
  }

  /** A card's message read line by line gives back its lines, when its fields hold no line break. */
  lemma CardReadsBack(page: nat, totalPages: nat, u: Users.User)
    requires SingleLineFields(u)
    ensures Split(Join(CardLines(page, totalPages, u), '\n'), '\n') == CardLines(page, totalPages, u)
  {
    var lines := CardLines(page, totalPages, u);
    NoSeparatorInNumber(page, '\n');
    NoSeparatorInNumber(totalPages, '\n');
    forall i | 0 <= i < |lines|
      ensures '\n' !in lines[i]
    {
    }
    JoinSplit(lines, '\n');
  }

  /** `Join` on a list of at least two lines peels off the first. */
  lemma JoinFirst(lines: seq<string>, sep: char)
    requires |lines| >= 2
    ensures Join(lines, sep) == lines[0] + [sep] + Join(lines[1..], sep)
  {
  }

  /** Seven lines, the second and the last empty, joined with line breaks. */
  lemma JoinCard(h: string, n: string, su: string, p: string, e: string)
    ensures Join([h, "", n, su, p, e, ""], '\n') == h + "\n" + "\n" + n + "\n" + su + "\n" + p + "\n" + e + "\n"
  {
    var t5: seq<string> := [e, ""];
    JoinFirst(t5, '\n');
    assert t5[1..] == [""];
    var t4 := [p] + t5;
    JoinFirst(t4, '\n');
    assert t4[1..] == t5;
    var t3 := [su] + t4;
    JoinFirst(t3, '\n');
    assert t3[1..] == t4;
    var t2 := [n] + t3;
    JoinFirst(t2, '\n');
    assert t2[1..] == t3;
    var t1 := [""] + t2;
    JoinFirst(t1, '\n');
    assert t1[1..] == t2;
    var t0 := [h] + t1;
    JoinFirst(t0, '\n');
    assert t0[1..] == t1;
    assert t0 == [h, "", n, su, p, e, ""];
  }

  /** The card's lines joined with line breaks are what the message-building steps produce. */
  lemma CardMessage(page: nat, totalPages: nat, u: Users.User)
    ensures Join(CardLines(page, totalPages, u), '\n')
            == "Запит " + NatToString(page) + " з " + NatToString(totalPages) + "\n\n"
               + "_Name_: *" + u.name + "*\n"
               + "_Surname_: *" + Text(u.surname) + "*\n"
               + "_Phone_: *" + u.phone + "*\n"
               + "_Email_: *" + u.email + "*\n"
  {
    var h := "Запит " + NatToString(page) + " з " + NatToString(totalPages);
    var n := "_Name_: *" + u.name + "*";
    var su := "_Surname_: *" + Text(u.surname) + "*";
    var p := "_Phone_: *" + u.phone + "*";
    var e := "_Email_: *" + u.email + "*";
    JoinCard(h, n, su, p, e);
    var m0 := h + "\n\n";
    assert m0 == h + "\n" + "\n";
    var m1 := m0 + "_Name_: *" + u.name + "*\n";
    assert m1 == m0 + n + "\n";
    var m2 := m1 + "_Surname_: *" + Text(u.surname) + "*\n";
    assert m2 == m1 + su + "\n";
    var m3 := m2 + "_Phone_: *" + u.phone + "*\n";
    assert m3 == m2 + p + "\n";
    var m4 := m3 + "_Email_: *" + u.email + "*\n";
    assert m4 == m3 + e + "\n";
  }

  /**
   * The keyboard under a card: confirm all, reject all, confirm and reject
   * the account, then the previous page exactly when `page > 1` and the next
   * page exactly when `page < totalPages`.
   */
  method Keyboard(page: nat, totalPages: nat, id: string) returns (buttons: seq<Button>)
    requires page >= 1
    ensures 4 <= |buttons| <= 6
    ensures buttons[..4] == [ConfirmAllButton, RejectAllButton, ConfirmButton(id), RejectButton(id)]
    ensures buttons[4..] == (if page > 1 then [PrevButton(page - 1)] else [])
                            + (if page < totalPages then [NextButton(page + 1)] else [])
    ensures PrevButton(page - 1) in buttons <==> page > 1
    ensures NextButton(page + 1) in buttons <==> page < totalPages
  {
    buttons := [ConfirmAllButton, RejectAllButton, ConfirmButton(id), RejectButton(id)];
    if page > 1 {
      buttons := buttons + [PrevButton(page - 1)];
    }
    if page < totalPages {
      buttons := buttons + [NextButton(page + 1)];
    }
  }

  /**
   * A screen showing account `u` on page `page` of `totalPages`: its card as
   * the message, the four fixed buttons, then previous exactly when
   * `page > 1` and next exactly when `page < totalPages`, in that order.
   */
  predicate CardScreen(page: int, totalPages: int, u: Users.User, screen: Screen)
  {
    && page >= 1 && totalPages >= 0
    && screen.message == Join(CardLines(page, totalPages, u), '\n')
    && |screen.buttons| >= 4
    && screen.buttons[..4] == [ConfirmAllButton, RejectAllButton, ConfirmButton(u.id), RejectButton(u.id)]
    && screen.buttons[4..] == (if page > 1 then [PrevButton(page - 1)] else [])
                              + (if page < totalPages then [NextButton(page + 1)] else [])
  }

  /**
   * What page `page` of the pending accounts of `rows` looks like: one page
   * per PENDING account; past the last one the empty message and no buttons,
   * otherwise the card of one PENDING account.
   */
  predicate PageScreen(rows: map<string, Users.User>, page: int, screen: Screen)
  {
    var totalPages := |Tables.Matching(rows, Users.HasRole(PENDING))|;
    && page >= 1
    && if page > totalPages then screen == Screen(NoPendingUsers, [])
       else exists k :: k in rows && rows[k].role == PENDING && CardScreen(page, totalPages, rows[k], screen)
  }

  // -------------------------------------------------------- state changes

  /** The table after every PENDING account is made USER. */
  function ConfirmedAll(rows: map<string, Users.User>): (r: map<string, Users.User>)
    ensures r.Keys == rows.Keys
    ensures Tables.Matching(r, Users.HasRole(PENDING)) == {}
  {
    map k | k in rows :: if rows[k].role == PENDING then rows[k].(role := USER) else rows[k]
  }

  /** The table after every PENDING account is removed. */
  function RejectedAll(rows: map<string, Users.User>): (r: map<string, Users.User>)
    ensures r.Keys == rows.Keys - Tables.Matching(rows, Users.HasRole(PENDING))
    ensures forall k :: k in r ==> r[k] == rows[k] && r[k].role != PENDING
  {
    map k | k in rows && rows[k].role != PENDING :: rows[k]
  }

  /**
   * Confirming all touches only PENDING accounts, each becoming USER with
   * every other field kept; after it there is nothing left to reject.
   */
  lemma ConfirmedAllLaws(rows: map<string, Users.User>)
    ensures forall k :: k in rows && rows[k].role != PENDING ==> ConfirmedAll(rows)[k] == rows[k]
    ensures forall k :: k in rows && rows[k].role == PENDING ==> ConfirmedAll(rows)[k] == rows[k].(role := USER)
    ensures RejectedAll(ConfirmedAll(rows)) == ConfirmedAll(rows)
    ensures ConfirmedAll(ConfirmedAll(rows)) == ConfirmedAll(rows)
  {
  }

  /**
   * The accounts loaded from a window of distinct PENDING keys are PENDING
   * accounts of the table, each under its own id, and no two are the same.
   */
  lemma LoadedPending(rows: map<string, Users.User>, keys: seq<string>, window: seq<string>, users: seq<Users.User>)
    requires Users.WellFormed(rows) && Tables.Distinct(keys)
    requires forall k :: k in keys ==> k in Tables.Matching(rows, Users.HasRole(PENDING))
    requires exists start, end :: 0 <= start <= end <= |keys| && window == keys[start..end]
    requires |users| == |window| && forall m :: 0 <= m < |window| ==> window[m] in rows && users[m] == rows[window[m]]
    ensures forall u :: u in users ==> u.id in rows && rows[u.id] == u && u.role == PENDING
    ensures forall i, j :: 0 <= i < j < |users| ==> users[i].id != users[j].id
  {
    var start, end :| 0 <= start <= end <= |keys| && window == keys[start..end];
    forall u | u in users
      ensures u.id in rows && rows[u.id] == u && u.role == PENDING
    {
      var m :| 0 <= m < |users| && users[m] == u;
      assert window[m] == keys[start + m];
      assert keys[start + m] in Tables.Matching(rows, Users.HasRole(PENDING));
    }
    forall a, b | 0 <= a < b < |users|
      ensures users[a].id != users[b].id
    {
      assert window[a] == keys[start + a] && window[b] == keys[start + b];
      assert users[a].id == window[a] && users[b].id == window[b];
    }
  }

  /**
   * The query behind `getPendingUsers` once its offset is known: skips `skip`
   * PENDING accounts and takes up to `limit`; `total` counts them all.
   */
  method PendingWindow(rows: map<string, Users.User>, skip: nat, limit: nat) returns (users: seq<Users.User>, total: nat)
    requires Users.WellFormed(rows)
    ensures total == |Tables.Matching(rows, Users.HasRole(PENDING))|
    ensures |users| == if skip >= total then 0 else Min(limit, total - skip)
    ensures forall u :: u in users ==> u.id in rows && rows[u.id] == u && u.role == PENDING
    ensures forall i, j :: 0 <= i < j < |users| ==> users[i].id != users[j].id
  {
    var keys := Tables.FindAll(rows, Users.HasRole(PENDING));
    total := |keys|;
    var count := if skip >= total then 0 else Min(limit, total - skip);
    var start := if skip >= total then total else skip;
    var window := keys[start..start + count];
    forall k | k in window
      ensures k in rows
    {
      assert k in keys;
    }
    users := Tables.Load(rows, window);
    LoadedPending(rows, keys, window, users);
  }

  /** What `getPendingUsers` returns: one page of PENDING accounts and how many there are in all. */
  datatype PendingPage = PendingPage(users: seq<Users.User>, total: nat)

  /** The database refuses a negative or NaN `OFFSET`. */
  const NegativeOffset: HttpError := QueryFailed("OFFSET must not be negative")
  const UserNotFound: HttpError := PlainError("User not found")

  /** The bot over the shared user table. */
  class BotService {
    const repo: Users.UserRepository

    /** `ITEMS_PER_PAGE`. */
    static const ItemsPerPage: nat := 1

    constructor(repo: Users.UserRepository)
      ensures this.repo == repo
    {
      this.repo := repo;
    }

    /**
     * `getPendingUsers`: skips `(page - 1) * limit` PENDING accounts, in no
     * particular order, and takes up to `limit`; `total` counts them all.
     */
    method GetPendingUsers(page: int, limit: nat) returns (r: Result<PendingPage>)
      requires repo.Valid() && limit >= 1
      ensures r.Err? <==> page < 1
      ensures r.Err? ==> r.error == NegativeOffset
      ensures r.Ok? ==> r.value.total == |Tables.Matching(repo.rows, Users.HasRole(PENDING))|
      ensures r.Ok? ==> |r.value.users| == if (page - 1) * limit >= r.value.total then 0
                                           else Min(limit, r.value.total - (page - 1) * limit)
      ensures r.Ok? ==> forall u :: u in r.value.users ==>
                          u.id in repo.rows && repo.rows[u.id] == u && u.role == PENDING
      ensures r.Ok? ==> forall i, j :: 0 <= i < j < |r.value.users| ==> r.value.users[i].id != r.value.users[j].id
    {
      var skip := (page - 1) * limit;
      if skip < 0 {
        return Err(NegativeOffset);
      }
      var users, total := PendingWindow(repo.rows, skip, limit);
      return Ok(PendingPage(users, total));
    }

    /**
     * `renderUserPage`: one account per page, so there are as many pages as
     * PENDING accounts. Past the last page the screen says there is nobody to
     * confirm and has no buttons. Otherwise it shows the page's account and
     * offers confirm all, reject all, confirm and reject that account, the
     * previous page exactly when `page > 1` and the next page exactly when
     * `page < totalPages`. `shown` is the account on the card.
     */
    method RenderUserPage(page: Option<int>) returns (r: Result<Screen>, shown: Option<Users.User>)
      requires repo.Valid()
      ensures r.Err? <==> page.None? || page.value < 1
      ensures r.Err? ==> r.error == NegativeOffset
      ensures r.Ok? ==> (shown.Some? <==> page.value <= |Tables.Matching(repo.rows, Users.HasRole(PENDING))|)
      ensures r.Ok? && shown.None? ==> r.value == Screen(NoPendingUsers, [])
      ensures r.Ok? && shown.Some? ==>
                var u := shown.value;
                && u.id in repo.rows && repo.rows[u.id] == u && u.role == PENDING
                && CardScreen(page.value, |Tables.Matching(repo.rows, Users.HasRole(PENDING))|, u, r.value)
      ensures r.Ok? ==> PageScreen(repo.rows, page.value, r.value)
    {
      if page.None? {
        return Err(NegativeOffset), None;
      }
      var p := page.value;
      var result := GetPendingUsers(p, ItemsPerPage);
      if result.Err? {
        return Err(result.error), None;
      }
      var users := result.value.users;
      var totalPages := result.value.total;
      if |users| == 0 {
        return Ok(Screen(NoPendingUsers, [])), None;
      }
      var user := users[0];
      var message := "Запит " + NatToString(p) + " з " + NatToString(totalPages) + "\n\n";
      message := message + "_Name_: *" + user.name + "*\n";
      message := message + "_Surname_: *" + Text(user.surname) + "*\n";
      message := message + "_Phone_: *" + user.phone + "*\n";
      message := message + "_Email_: *" + user.email + "*\n";
      CardMessage(p, totalPages, user);
      var buttons := Keyboard(p, totalPages, user.id);
      assert CardScreen(p, totalPages, repo.rows[user.id], Screen(message, buttons));
      return Ok(Screen(message, buttons)), Some(user);
    }

    /** `confirmMember`: the account becomes USER whatever its role was; an unknown id is an Error. */
    method ConfirmMember(id: string) returns (r: Result<()>)
      requires repo.Valid()
      modifies repo
      ensures repo.Valid()
      ensures id !in old(repo.rows) ==> r == Err(UserNotFound) && repo.rows == old(repo.rows)
      ensures id in old(repo.rows) ==>
                r == Ok(()) && repo.rows == old(repo.rows)[id := old(repo.rows)[id].(role := USER)]
    {
      if id !in repo.rows {
        return Err(UserNotFound);
      }
      var user := repo.rows[id];
      user := user.(role := USER);
      repo.rows := repo.rows[id := user];
      return Ok(());
    }

    /** `rejectMember`: the account is removed whatever its role; an unknown id is an Error. */
    method RejectMember(id: string) returns (r: Result<()>)
      requires repo.Valid()
      modifies repo
      ensures repo.Valid()
      ensures id !in old(repo.rows) ==> r == Err(UserNotFound) && repo.rows == old(repo.rows)
      ensures id in old(repo.rows) ==> r == Ok(()) && repo.rows == old(repo.rows) - {id}
    {
      if id !in repo.rows {
        return Err(UserNotFound);
      }
      Users.RemoveKeepsWellFormed(repo.rows, {id});
      repo.rows := repo.rows - {id};
      return Ok(());
    }

    /** `confirmAllMembers`: each PENDING account found is made USER and saved, one by one. */
    method ConfirmAllMembers()
      requires repo.Valid()
      modifies repo
      ensures repo.Valid()
      ensures repo.rows == ConfirmedAll(old(repo.rows))
    {
      var pending := Tables.FindAll(repo.rows, Users.HasRole(PENDING));
      ghost var before := repo.rows;
      var i := 0;
      while i < |pending|
        invariant 0 <= i <= |pending|
        invariant repo.rows.Keys == before.Keys
        invariant forall k :: k in before ==>
                    repo.rows[k] == if k in pending[..i] then before[k].(role := USER) else before[k]
        invariant Users.WellFormed(repo.rows)
      {
        var k := pending[i];
        assert k in Tables.Matching(before, Users.HasRole(PENDING));
        assert k !in pending[..i] by {
          assert forall j :: 0 <= j < i ==> pending[j] != pending[i];
        }
        var user := repo.rows[k];
        user := user.(role := USER);
        Users.OwnEmailNotTakenByOther(repo.rows, k);
        Users.ReplaceKeepsWellFormed(repo.rows, user);
        repo.rows := repo.rows[k := user];
        assert pending[..i + 1] == pending[..i] + [k];
        i := i + 1;
      }
      assert pending[..i] == pending;
      forall k | k in before
        ensures repo.rows[k] == ConfirmedAll(before)[k]
      {
        assert k in pending <==> k in Tables.Matching(before, Users.HasRole(PENDING));
      }
    }

    /** `rejectAllMembers`: every PENDING account found is removed in one call. */
    method RejectAllMembers()
      requires repo.Valid()
      modifies repo
      ensures repo.Valid()
      ensures repo.rows == RejectedAll(old(repo.rows))
    {
      var pending := Tables.FindAll(repo.rows, Users.HasRole(PENDING));
      var ids := set k | k in pending;
      Users.RemoveKeepsWellFormed(repo.rows, ids);
      assert ids == Tables.Matching(repo.rows, Users.HasRole(PENDING));
      repo.rows := repo.rows - ids;
    }

    /**
     * The `callback_query:data` handler: runs what the data asks for. A page
     * request renders that page; confirming or rejecting one account then
     * renders page 1; the bulk actions render nothing. A thrown error ends
     * the handler and is the `Err` result.
     */
    method HandleCallback(data: string) returns (r: Result<Option<Screen>>)
      requires repo.Valid()
      modifies repo
      ensures repo.Valid()
      ensures ParseCallback(data) == [] ==> r == Ok(None) && repo.rows == old(repo.rows)
      ensures ParseCallback(data) == [ConfirmAll] ==> r == Ok(None) && repo.rows == ConfirmedAll(old(repo.rows))
      ensures ParseCallback(data) == [RejectAll] ==> r == Ok(None) && repo.rows == RejectedAll(old(repo.rows))
      ensures (exists p :: ParseCallback(data) == [ShowPage(p)]) ==>
                var page := ParseCallback(data)[0].page;
                && repo.rows == old(repo.rows)
                && (r.Ok? <==> page.Some? && page.value >= 1)
                && (r.Ok? ==> r.value.Some? && PageScreen(repo.rows, page.value, r.value.value))
                && (r.Err? ==> r.error == NegativeOffset)
      ensures (exists id :: ParseCallback(data) == [ConfirmOne(id)]) ==>
                var id := ParseCallback(data)[0].id;
                if id in old(repo.rows)
                then && repo.rows == old(repo.rows)[id := old(repo.rows)[id].(role := USER)]
                     && r.Ok? && r.value.Some? && PageScreen(repo.rows, 1, r.value.value)
                else r == Err(UserNotFound) && repo.rows == old(repo.rows)
      ensures (exists id :: ParseCallback(data) == [RejectOne(id)]) ==>
                var id := ParseCallback(data)[0].id;
                if id in old(repo.rows)
                then && repo.rows == old(repo.rows) - {id}
                     && r.Ok? && r.value.Some? && PageScreen(repo.rows, 1, r.value.value)
                else r == Err(UserNotFound) && repo.rows == old(repo.rows)
    {
      AtMostOneCommand(data);
      var commands := ParseCallback(data);
      if commands == [] {
        return Ok(None);
      }
      match commands[0]
      case ConfirmAll =>
        ConfirmAllMembers();
        return Ok(None);
      case RejectAll =>
        RejectAllMembers();
        return Ok(None);
      case ShowPage(p) =>
        var screen, _ := RenderUserPage(p);
        if screen.Err? {
          return Err(screen.error);
        }
        return Ok(Some(screen.value));
      case ConfirmOne(id) =>
        var done := ConfirmMember(id);
        if done.Err? {
          return Err(done.error);
        }
        var screen, _ := RenderUserPage(Some(1));
        return Ok(Some(screen.value));
      case RejectOne(id) =>
        var done := RejectMember(id);
        if done.Err? {
          return Err(done.error);
        }
        var screen, _ := RenderUserPage(Some(1));
        return Ok(Some(screen.value));
    }
  }

  function Min(a: int, b: int): int
  {
    if a <= b then a else b
  }
}
