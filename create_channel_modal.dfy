/** src/components/server/modals/CreateChannelModal.tsx: the form that
    creates a channel in a category. Its submit handler rejects a blank name,
    asks for the highest position in the category, inserts the new row and
    resets the form on success. */
module CreateChannelModal {
  import opened Common
  import opened JsText

  /** The `channel_type` enum. */
  datatype ChannelType = Text | Voice | Announcement

  datatype ChannelSettings = ChannelSettings(nsfw: bool, slowmode: int, requireVerification: bool)

  /** The row the handler inserts into `channels`. */
  datatype ChannelInsert = ChannelInsert(
    name: string,
    channelType: ChannelType,
    categoryId: string,
    serverId: string,
    position: int,
    settings: ChannelSettings)

  /** A string a channel name may be: no whitespace and no upper-case letter. */
  predicate IsSlug(s: string) {
    forall i :: 0 <= i < |s| ==> !IsSpace(s[i]) && !IsUpper(s[i])
  }

  /** Lower-casing and run replacement over `s`, where `inRun` tells whether
      the character before `s` was whitespace (and so already produced its
      '-'). */
  function SlugFrom(s: string, inRun: bool): (r: string)
    ensures IsSlug(r)
    ensures |r| <= |s|
  {
    if s == [] then []
    else if IsSpace(s[0]) then
      if inRun then SlugFrom(s[1..], true) else "-" + SlugFrom(s[1..], true)
    else [ToLower(s[0])] + SlugFrom(s[1..], false)
  }

  /** `channelName.toLowerCase().replace(/\s+/g, '-')`. */
  function Slug(name: string): (r: string)
    ensures IsSlug(r)
    ensures |r| <= |name|
  {
    SlugFrom(name, false)
  }

  /** Whether the text just read ended in whitespace. */
  function EndsInRun(s: string, inRun: bool): bool {
    if s == [] then inRun else IsSpace(s[|s| - 1])
  }

  lemma {:induction false} SlugFromConcat(a: string, t: string, inRun: bool)
    ensures SlugFrom(a + t, inRun) == SlugFrom(a, inRun) + SlugFrom(t, EndsInRun(a, inRun))
    decreases |a|
  {
    if a == [] {
      assert a + t == t;
    } else {
      assert (a + t)[0] == a[0];
      assert (a + t)[1..] == a[1..] + t;
      SlugFromConcat(a[1..], t, IsSpace(a[0]));
      assert EndsInRun(a[1..], IsSpace(a[0])) == EndsInRun(a, inRun);
    }
  }

  lemma {:induction false} SlugFromBlank(ws: string)
    requires IsBlank(ws)
    ensures SlugFrom(ws, true) == []
    decreases |ws|
  {
    if ws != [] {
      SlugFromBlank(ws[1..]);
    }
  }

  /** The input lower-cased, character by character. */
  function Lowered(w: string): string {
    seq(|w|, i requires 0 <= i < |w| => ToLower(w[i]))
  }

  /** A word without whitespace is only lower-cased. */
  lemma {:induction false} SlugOfWord(w: string, inRun: bool)
    requires !HasSpace(w)
    ensures SlugFrom(w, inRun) == Lowered(w)
    decreases |w|
  {
    if w != [] {
      assert !IsSpace(w[0]);
      SlugOfWord(w[1..], false);
      assert Lowered(w) == [ToLower(w[0])] + Lowered(w[1..]);
    }
  }

  /** Each maximal run of whitespace becomes exactly one '-': a run between
      two stretches that do not touch it turns into a single '-' between
      their slugs. With `SlugOfWord` this fixes the slug of every name. */
  lemma SlugReplacesRun(a: string, ws: string, b: string)
    requires a == [] || !IsSpace(a[|a| - 1])
    requires ws != [] && IsBlank(ws)
    requires b == [] || !IsSpace(b[0])
    ensures Slug(a + ws + b) == Slug(a) + "-" + Slug(b)
  {
    assert a + ws + b == a + (ws + b);
    SlugFromConcat(a, ws + b, false);
    assert !EndsInRun(a, false);
    SlugFromRun(ws, b);
  }

  /** A run of whitespace read outside a run gives one '-', and the text
      after it starts afresh. */
  lemma SlugFromRun(ws: string, b: string)
    requires ws != [] && IsBlank(ws)
    requires b == [] || !IsSpace(b[0])
    ensures SlugFrom(ws + b, false) == "-" + SlugFrom(b, false)
  {
    var rest := ws + b;
    assert rest[0] == ws[0] && rest[1..] == ws[1..] + b;
    SlugFromConcat(ws[1..], b, true);
    SlugFromBlank(ws[1..]);
    assert SlugFrom(b, true) == SlugFrom(b, false) by {
      if b != [] {
        assert !IsSpace(b[0]);
      }
    }
  }

  lemma {:induction false} SlugFromEndsInDash(s: string, inRun: bool)
    requires s != [] && IsSpace(s[|s| - 1])
    ensures var r := SlugFrom(s, inRun); r == [] || r[|r| - 1] == '-'
    ensures !inRun ==> SlugFrom(s, inRun) != []
    decreases |s|
  {
    var p := s[..|s| - 1];
    assert s == p + [s[|s| - 1]];
    SlugFromConcat(p, [s[|s| - 1]], inRun);
    assert SlugFrom([s[|s| - 1]], EndsInRun(p, inRun)) == if EndsInRun(p, inRun) then [] else "-";
    if EndsInRun(p, inRun) && p != [] {
      SlugFromEndsInDash(p, inRun);
    }
    if !inRun && p != [] {
      assert SlugFrom(p, false) != [] by {
        if IsSpace(p[0]) {
          assert SlugFrom(p, false)[0] == '-';
        } else {
          assert SlugFrom(p, false)[0] == ToLower(p[0]);
        }
      }
    }
  }

  /** The name is not trimmed: leading or trailing whitespace turns into a
      leading or trailing '-'. */
  lemma SlugKeepsEdges(name: string)
    requires name != []
    ensures Slug(name) != []
    ensures IsSpace(name[0]) ==> Slug(name)[0] == '-'
    ensures IsSpace(name[|name| - 1]) ==> Slug(name)[|Slug(name)| - 1] == '-'
  {
    if IsSpace(name[|name| - 1]) {
      SlugFromEndsInDash(name, false);
    }
  }

  /** The result of the query for the highest position in the category:
      an error, or the rows returned (highest first, at most one). */
  datatype PositionQuery = QueryFailed | QueryRows(positions: seq<int>)

  /** `(maxPositionData?.[0]?.position ?? 0) + 1`: an error is not checked,
      and counts as no rows. */
  function NewPosition(q: PositionQuery): int {
    (if q.QueryRows? && q.positions != [] then q.positions[0] else 0) + 1
  }

  function Max(s: seq<int>): (m: int)
    requires s != []
    ensures m in s
    ensures forall i :: 0 <= i < |s| ==> s[i] <= m
  {
    if |s| == 1 then s[0]
    else
      var rest := Max(s[1..]);
      if s[0] >= rest then s[0] else rest
  }

  /** The rows the query `order('position', { ascending: false }).limit(1)`
      returns for the positions already in the category. */
  function HighestFirst(existing: seq<int>): seq<int> {
    if existing == [] then [] else [Max(existing)]
  }

  /** The new channel goes after every channel already in the category: its
      position is the highest one plus one, or 1 in an empty category. */
  lemma NewPositionAfterExisting(existing: seq<int>)
    ensures var p := NewPosition(QueryRows(HighestFirst(existing)));
      && (forall i :: 0 <= i < |existing| ==> existing[i] < p)
      && (existing == [] ==> p == 1)
      && (existing != [] ==> p - 1 in existing)
  {
  }

  /** A category holding channels at positions 0 and 1 gets its new channel
      at position 2. */
  lemma NewPositionScenario()
    ensures NewPosition(QueryRows(HighestFirst([0, 1]))) == 2
  {
    assert Max([0, 1]) == 1 by {
      assert [0, 1][1..] == [1];
    }
  }

  /** Two words separated by one space become the lower-cased words joined
      by '-'. */
  lemma SlugOfTwoWords(a: string, b: string)
    requires a != [] && !HasSpace(a)
    requires b != [] && !HasSpace(b)
    ensures Slug(a + " " + b) == Lowered(a) + "-" + Lowered(b)
  {
    assert !IsSpace(a[|a| - 1]) && !IsSpace(b[0]);
    SlugReplacesRun(a, " ", b);
    SlugOfWord(a, false);
    SlugOfWord(b, false);
  }

  /** `parseInt(e.target.value) || 0`: NaN becomes 0, and no bound is
      applied. */
  function SlowModeInput(text: string): int {
    match ParseInt(text)
    case NaN => 0
    case Num(n) => n
  }

  /** Any integer typed in decimal is taken as it is, out of the 0..21600
      range of the input's hint included. */
  lemma SlowModeUnclamped(n: int)
    ensures SlowModeInput(Decimal(n)) == n
  {
    ParseIntDecimal(n);
  }

  /** Text without a digit gives 0. */
  lemma SlowModeNonNumeric(text: string)
    requires forall i :: 0 <= i < |text| ==> !IsDigit(text[i])
    ensures SlowModeInput(text) == 0
  {
    ParseIntWithoutDigits(text);
  }

  /** The form's state. */
  class CreateChannelModal {
    const serverId: string
    const categoryId: string
    var isOpen: bool
    var channelName: string
    var channelType: ChannelType
    var isNsfw: bool
    var slowMode: int
    var isLoading: bool

    constructor (serverId: string, categoryId: string)
      ensures this.serverId == serverId && this.categoryId == categoryId
      ensures !isOpen && channelName == "" && channelType == Text && !isNsfw && slowMode == 0 && !isLoading
    {
      this.serverId := serverId;
      this.categoryId := categoryId;
      isOpen := false;
      channelName := "";
      channelType := Text;
      isNsfw := false;
      slowMode := 0;
      isLoading := false;
    }

    /** The dialog's trigger, its close control and the Cancel button. */
    method SetOpen(open: bool)
      modifies this`isOpen
      ensures isOpen == open
    {
      isOpen := open;
    }

    method EditName(text: string)
      modifies this`channelName
      ensures channelName == text
    {
      channelName := text;
    }

    method ChooseType(t: ChannelType)
      modifies this`channelType
      ensures channelType == t
    {
      channelType := t;
    }

    method SetNsfw(nsfw: bool)
      modifies this`isNsfw
      ensures isNsfw == nsfw
    {
      isNsfw := nsfw;
    }

    /** The slow-mode input's change handler. */
    method EditSlowMode(text: string)
      modifies this`slowMode
      ensures slowMode == SlowModeInput(text)
    {
      slowMode := SlowModeInput(text);
    }

    /** `handleSubmit`, given the outcome of the position query and whether
      the insert succeeded. Returns the row it tried to insert (none when
      the name is blank) and whether `onChannelCreated` was called. */
    method Submit(query: PositionQuery, insertOk: bool) returns (inserted: Option<ChannelInsert>, created: bool, notice: Notice)
      modifies this
      ensures Trim(old(channelName)) == "" ==>
        && inserted == None && !created && notice == ErrorNotice("Please enter a channel name")
        && isOpen == old(isOpen) && channelName == old(channelName) && channelType == old(channelType)
        && isNsfw == old(isNsfw) && slowMode == old(slowMode) && isLoading == old(isLoading)
      ensures Trim(old(channelName)) != "" ==>
        && inserted == Some(ChannelInsert(Slug(old(channelName)), old(channelType), categoryId, serverId,
                                          NewPosition(query), ChannelSettings(old(isNsfw), old(slowMode), false)))
        && created == insertOk && !isLoading
      ensures Trim(old(channelName)) != "" && insertOk ==>
        && notice == SuccessNotice("Channel created successfully!")
        && !isOpen && channelName == "" && channelType == Text && !isNsfw && slowMode == 0
      ensures Trim(old(channelName)) != "" && !insertOk ==>
        && notice == ErrorNotice("Failed to create channel")
        && isOpen == old(isOpen) && channelName == old(channelName) && channelType == old(channelType)
        && isNsfw == old(isNsfw) && slowMode == old(slowMode)
    {
      if Trim(channelName) == "" {
        return None, false, ErrorNotice("Please enter a channel name");
      }
      isLoading := true;
      var position := NewPosition(query);
      var row := ChannelInsert(Slug(channelName), channelType, categoryId, serverId, position,
                               ChannelSettings(isNsfw, slowMode, false));
      inserted := Some(row);
      if insertOk {
        notice := SuccessNotice("Channel created successfully!");
        created := true;
        isOpen := false;
        channelName := "";
        channelType := Text;
        isNsfw := false;
        slowMode := 0;
      } else {
        notice := ErrorNotice("Failed to create channel");
        created := false;
      }
      isLoading := false;
    }
  }

  /** The gate in `handleSubmit` rejects exactly the empty and
      whitespace-only names. */
  lemma SubmitGateIsBlank(name: string)
    ensures Trim(name) == "" <==> IsBlank(name)
  {
    TrimEmptyIffBlank(name);
  }
}
