/**
 * What `_admin_section` writes when it creates requests: the "Create New
 * Request" form (one request, or a numbered batch), the "Batch QR Code
 * Generation" form, and the content of the QR code each listed request shows.
 * Tokens come from `uuid4().hex`; here they are passed in, fresh and distinct.
 */
module Admin {
  import opened Text
  import opened Db
  import opened Routing
  import opened SettingKeys
  import opened Review

  datatype QrMode = AutoUrl | CustomText

  /** The create form's only check (app.py:173): a title that strips to nothing is refused. */
  predicate TitleGiven(title: string) {
    Strip(title) != []
  }

  /** The create form's fallback when no base URL is saved (app.py:179), also the admin list's local link. */
  const CreateFormDefaultBase: string := "http://192.168.1.4:8501"

  /** The batch form's fallback (app.py:295-297). */
  const BatchFormDefaultBase: string := "http://192.168.1.12:8501"

  /** `get_setting("base_url", "") or fallback`. */
  function BaseUrlOr(settings: map<string, string>, fallback: string): string {
    if BaseUrlKey in settings && settings[BaseUrlKey] != [] then settings[BaseUrlKey] else fallback
  }

  /** What a printed code encodes (app.py:193, app.py:206): non-blank custom text, otherwise the form link. */
  function QrContent(mode: QrMode, customText: string, base: string, token: string): string {
    if mode == CustomText && Strip(customText) != [] then Strip(customText) else BuildFormUrl(base, token)
  }

  /** An automatic code opens the public form for its own token, whatever query the base URL carries. */
  lemma AutoContentOpensForm(mode: QrMode, customText: string, base: string, token: string)
    requires mode == AutoUrl || Strip(customText) == []
    requires '#' !in base
    requires token != [] && HexToken(token)
    ensures Route(QueryParams(QrContent(mode, customText, base, token))) == PublicFormPage(token)
  {
    FormUrlOpensForm(base, token);
  }

  /** `f"{title.strip()} #{i+1}"` (app.py:201). */
  function NumberedTitle(title: string, i: nat): string {
    Strip(title) + " #" + NatToString(i + 1)
  }

  /** The requests of one numbered batch never share a title. */
  lemma NumberedTitlesDistinct(title: string, i: nat, j: nat)
    requires i != j
    ensures NumberedTitle(title, i) != NumberedTitle(title, j)
  {
    var prefix := Strip(title) + " #";
    if NumberedTitle(title, i) == NumberedTitle(title, j) {
      assert NumberedTitle(title, i)[|prefix|..] == NatToString(i + 1);
      assert NumberedTitle(title, j)[|prefix|..] == NatToString(j + 1);
      NatToStringInjective(i + 1, j + 1);
    }
  }

  /** The title of the `i`-th request the create form makes: plain for one request, numbered for several. */
  function CreatedTitle(title: string, count: nat, i: nat): string {
    if count == 1 then Strip(title) else NumberedTitle(title, i)
  }

  /** `f"Batch QR #{i+1}"` and `f"Generated QR code #{i+1} from batch"` (app.py:302-303). */
  function BatchTitle(i: nat): string {
    "Batch QR #" + NatToString(i + 1)
  }

  function BatchDescription(i: nat): string {
    "Generated QR code #" + NatToString(i + 1) + " from batch"
  }

  /** Tokens no request holds yet, no two alike. */
  ghost predicate FreshTokens(rows: seq<Request>, tokens: seq<string>) {
    && (forall i, j :: 0 <= i < j < |tokens| ==> tokens[i] != tokens[j])
    && (forall i :: 0 <= i < |tokens| ==> !HasToken(rows, tokens[i]))
  }

  /**
   * The settings after `n` requests with ids `first`, `first + 1`, ... have
   * had their points stored as `text`: those keys hold `text`, every other
   * key is as it was.
   */
  function PointsSettings(settings: map<string, string>, first: nat, n: nat, text: string): map<string, string> {
    if n == 0 then settings
    else PointsSettings(settings, first, n - 1, text)[PointsKey(first + n - 1) := text]
  }

  lemma PointsSettingsMeaning(settings: map<string, string>, first: nat, n: nat, text: string)
    ensures forall id: nat :: first <= id < first + n ==>
      PointsKey(id) in PointsSettings(settings, first, n, text) && PointsSettings(settings, first, n, text)[PointsKey(id)] == text
    ensures forall k :: (forall id: nat :: first <= id < first + n ==> k != PointsKey(id)) ==>
      && (k in PointsSettings(settings, first, n, text) <==> k in settings)
      && (k in settings ==> PointsSettings(settings, first, n, text)[k] == settings[k])
  {
    PointsKeysHold(settings, first, n, text);
    PointsOthersKept(settings, first, n, text);
  }

  /** Every created id's points key holds `text`, whatever it held before. */
  lemma {:induction false} PointsKeysHold(settings: map<string, string>, first: nat, n: nat, text: string)
    ensures forall id: nat :: first <= id < first + n ==>
      PointsKey(id) in PointsSettings(settings, first, n, text) && PointsSettings(settings, first, n, text)[PointsKey(id)] == text
  {
    if n > 0 {
      PointsKeysHold(settings, first, n - 1, text);
    }
  }

  /** A key that is no created id's points key keeps its presence and value. */
  lemma {:induction false} PointsOthersKept(settings: map<string, string>, first: nat, n: nat, text: string)
    ensures forall k :: (forall id: nat :: first <= id < first + n ==> k != PointsKey(id)) ==>
      && (k in PointsSettings(settings, first, n, text) <==> k in settings)
      && (k in settings ==> PointsSettings(settings, first, n, text)[k] == settings[k])
  {
    if n > 0 {
      PointsOthersKept(settings, first, n - 1, text);
    }
  }

  /** The row that `create_request` adds, with the one-time flag the form then sets. */
  function ConfiguredRow(id: nat, title: string, description: string, token: string, now: nat, oneTime: bool): Request {
    Request(id, title, description, "open", token, now, oneTime, 0)
  }

  /**
   * One request as both forms make it (app.py:186-189, app.py:306-312):
   * `create_request`, then its points setting and its one-time flag.
   */
  method CreateConfigured(store: Store, title: string, description: string, token: string,
                          pointsText: string, oneTime: bool, now: nat)
    returns (req: Request)
    requires store.Valid()
    requires !HasToken(store.requests, token)
    modifies store
    ensures store.Valid()
    ensures req == ConfiguredRow(old(store.lastRequestId) + 1, title, description, token, now, oneTime)
    ensures store.requests == old(store.requests) + [req]
    ensures store.settings == old(store.settings)[PointsKey(req.id) := pointsText]
    ensures store.submissions == old(store.submissions)
    ensures store.lastRequestId == old(store.lastRequestId) + 1
    ensures store.lastSubmissionId == old(store.lastSubmissionId)
  {
    var created := store.CreateRequest(title, description, token, now);
    var row := created.value;
    store.SetSetting(PointsKey(row.id), pointsText);
    ghost var before := store.requests;
    store.SetOneTimeUse(row.id, oneTime);
    req := row.(oneTimeUse := oneTime);
    forall i | 0 <= i < |before| - 1 ensures before[i].id != row.id {
      assert before[i] in old(store.requests);
    }
    assert store.requests == old(store.requests) + [req];
  }

  /**
   * The creation loop shared by both forms: request `i` gets `titles[i]`,
   * `descriptions[i]` and `tokens[i]`, ids counting up from the next free
   * one, and its code the content for its token.
   */
  method CreateAll(store: Store, titles: seq<string>, descriptions: seq<string>, tokens: seq<string>,
                   pointsText: string, oneTime: bool, mode: QrMode, customText: string, base: string, now: nat)
    returns (created: seq<Request>, contents: seq<string>)
    requires store.Valid()
    requires |titles| == |tokens| && |descriptions| == |tokens|
    requires FreshTokens(store.requests, tokens)
    modifies store
    ensures store.Valid()
    ensures |created| == |tokens| && |contents| == |tokens|
    ensures store.requests == old(store.requests) + created
    ensures forall i :: 0 <= i < |tokens| ==>
      created[i] == ConfiguredRow(old(store.lastRequestId) + 1 + i, titles[i], descriptions[i], tokens[i], now, oneTime)
    ensures forall i :: 0 <= i < |tokens| ==> contents[i] == QrContent(mode, customText, base, tokens[i])
    ensures store.settings == PointsSettings(old(store.settings), old(store.lastRequestId) + 1, |tokens|, pointsText)
    ensures store.submissions == old(store.submissions)
    ensures store.lastRequestId == old(store.lastRequestId) + |tokens|
    ensures store.lastSubmissionId == old(store.lastSubmissionId)
  {
    ghost var rows0, settings0, last0 := store.requests, store.settings, store.lastRequestId;
    ghost var first: nat := last0 + 1;
    created, contents := [], [];
    for i := 0 to |tokens|
      invariant store.Valid()
      invariant |created| == i && |contents| == i
      invariant store.requests == rows0 + created
      invariant forall j :: 0 <= j < i ==>
        created[j] == ConfiguredRow(first + j, titles[j], descriptions[j], tokens[j], now, oneTime)
      invariant forall j :: 0 <= j < i ==> contents[j] == QrContent(mode, customText, base, tokens[j])
      invariant store.settings == PointsSettings(settings0, first, i, pointsText)
      invariant store.submissions == old(store.submissions)
      invariant store.lastRequestId == last0 + i
      invariant store.lastSubmissionId == old(store.lastSubmissionId)
    {
      TokenStillFresh(rows0, created, tokens, i);
      ghost var done := created;
      created := CreateNext(store, titles[i], descriptions[i], tokens[i], pointsText, oneTime, now,
                            rows0, settings0, first, created);
      forall j | 0 <= j < i + 1
        ensures created[j] == ConfiguredRow(first + j, titles[j], descriptions[j], tokens[j], now, oneTime)
      {
        if j < i {
          assert created[j] == done[j];
        }
      }
      ghost var shown := contents;
      contents := contents + [QrContent(mode, customText, base, tokens[i])];
      forall j | 0 <= j < i + 1 ensures contents[j] == QrContent(mode, customText, base, tokens[j]) {
        if j < i {
          assert contents[j] == shown[j];
        }
      }
    }
  }

  /** One pass of the creation loop: the next request goes after those created so far. */
  method CreateNext(store: Store, title: string, description: string, token: string, pointsText: string,
                    oneTime: bool, now: nat, ghost rows0: seq<Request>, ghost settings0: map<string, string>,
                    ghost first: nat, created: seq<Request>)
    returns (created': seq<Request>)
    requires store.Valid()
    requires store.requests == rows0 + created
    requires store.lastRequestId + 1 == first + |created|
    requires store.settings == PointsSettings(settings0, first, |created|, pointsText)
    requires !HasToken(store.requests, token)
    modifies store
    ensures store.Valid()
    ensures created' == created + [ConfiguredRow(first + |created|, title, description, token, now, oneTime)]
    ensures store.requests == rows0 + created'
    ensures store.settings == PointsSettings(settings0, first, |created'|, pointsText)
    ensures store.lastRequestId == old(store.lastRequestId) + 1
    ensures store.submissions == old(store.submissions)
    ensures store.lastSubmissionId == old(store.lastSubmissionId)
  {
    ghost var before := store.settings;
    var req := CreateConfigured(store, title, description, token, pointsText, oneTime, now);
    created' := created + [req];
    assert store.requests == rows0 + created';
    assert req.id == first + |created|;
    assert PointsSettings(settings0, first, |created'|, pointsText)
        == PointsSettings(settings0, first, |created|, pointsText)[PointsKey(first + |created|) := pointsText];
  }

  /** The next token of the loop is held neither by an old row nor by a row the loop created. */
  lemma TokenStillFresh(rows: seq<Request>, created: seq<Request>, tokens: seq<string>, i: nat)
    requires FreshTokens(rows, tokens) && i < |tokens| && |created| == i
    requires forall j :: 0 <= j < i ==> created[j].token == tokens[j]
    ensures !HasToken(rows + created, tokens[i])
  {
  }

  /** The settings the create form leaves: every new request's points, and a single request's custom text. */
  function CreatedSettings(settings: map<string, string>, first: nat, count: nat, points: nat,
                           mode: QrMode, customText: string): map<string, string> {
    var s := PointsSettings(settings, first, count, NatToString(points));
    if count == 1 && mode == CustomText && Strip(customText) != [] then s[QrCustomKey(first) := Strip(customText)] else s
  }

  /** Every request the create form makes is worth the form's points when the review page reads them back. */
  lemma CreatedRequestsEarnPoints(settings: map<string, string>, first: nat, count: nat, points: nat,
                                  mode: QrMode, customText: string, id: nat)
    requires first <= id < first + count
    ensures RequestPoints(CreatedSettings(settings, first, count, points, mode, customText), id) == points
  {
    PointsSettingsMeaning(settings, first, count, NatToString(points));
    KeysDistinct(id, first);
    PointsRoundTrip(points);
  }

  /**
   * What the admin list shows for a freshly created request. For a single
   * request, or without custom text, it is the code the form printed; the
   * numbered requests of a custom-text batch show their form link instead,
   * because their custom text is printed but never saved.
   */
  lemma ListedAfterCreate(settings: map<string, string>, first: nat, count: nat, points: nat,
                          mode: QrMode, customText: string, r: Request)
    requires first <= r.id < first + count
    requires QrCustomKey(r.id) !in settings
    ensures count == 1 || mode == AutoUrl || Strip(customText) == [] ==>
      ListedQrContent(CreatedSettings(settings, first, count, points, mode, customText), r)
        == QrContent(mode, customText, BaseUrlOr(settings, CreateFormDefaultBase), r.token)
    ensures count > 1 && mode == CustomText && Strip(customText) != [] ==>
      ListedQrContent(CreatedSettings(settings, first, count, points, mode, customText), r)
        == BuildFormUrl(BaseUrlOr(settings, CreateFormDefaultBase), r.token)
  {
    var text := NatToString(points);
    var after := CreatedSettings(settings, first, count, points, mode, customText);
    PointsOthersKept(settings, first, count, text);
    forall id: nat | first <= id < first + count
      ensures QrCustomKey(r.id) != PointsKey(id) && BaseUrlKey != PointsKey(id)
    {
      KeysDistinct(id, r.id);
    }
    KeysDistinct(first, first);
    assert BaseUrlOr(after, "") == BaseUrlOr(settings, "");
    assert BaseUrlOr(after, CreateFormDefaultBase) == BaseUrlOr(settings, CreateFormDefaultBase);
    if count == 1 && mode == CustomText && Strip(customText) != [] {
      assert r.id == first;
      assert ListedQrContent(after, r) == Strip(customText);
    } else {
      assert QrCustomKey(r.id) !in after;
      ListedMatchesCreateForm(after, r);
    }
  }

  datatype CreateOutcome = TitleRequired | Created(requests: seq<Request>, contents: seq<string>)

  /**
   * "Create New Request" (app.py:172-209): with a title, `count` open requests
   * with the stripped description, the form's points and one-time flag, each
   * printed with its own content; a single request keeps its custom text in
   * the settings.
   */
  method CreateFromForm(store: Store, title: string, description: string, points: nat, oneTime: bool,
                        count: nat, mode: QrMode, customText: string, tokens: seq<string>, now: nat)
    returns (outcome: CreateOutcome)
    requires store.Valid()
    requires 1 <= count <= 100 && |tokens| == count
    requires FreshTokens(store.requests, tokens)
    modifies store
    ensures store.Valid()
    ensures outcome == TitleRequired <==> !TitleGiven(title)
    ensures outcome == TitleRequired ==>
      && store.requests == old(store.requests) && store.settings == old(store.settings)
      && store.lastRequestId == old(store.lastRequestId)
    ensures outcome.Created? ==>
      && |outcome.requests| == count && |outcome.contents| == count
      && store.requests == old(store.requests) + outcome.requests
      && (forall i :: 0 <= i < count ==>
            outcome.requests[i] == ConfiguredRow(old(store.lastRequestId) + 1 + i, CreatedTitle(title, count, i),
                                                 Strip(description), tokens[i], now, oneTime))
      && (forall i :: 0 <= i < count ==>
            outcome.contents[i] == QrContent(mode, customText, BaseUrlOr(old(store.settings), CreateFormDefaultBase), tokens[i]))
      && store.settings == CreatedSettings(old(store.settings), old(store.lastRequestId) + 1, count, points, mode, customText)
    ensures store.submissions == old(store.submissions)
  {
    if !TitleGiven(title) {
      return TitleRequired;
    }
    var base := BaseUrlOr(store.settings, CreateFormDefaultBase);
    var titles := seq(count, i requires 0 <= i < count => CreatedTitle(title, count, i));
    var descriptions := seq(count, i requires 0 <= i < count => Strip(description));
    var created, contents := CreateAll(store, titles, descriptions, tokens, NatToString(points), oneTime,
                                       mode, customText, base, now);
    if count == 1 && mode == CustomText && Strip(customText) != [] {
      store.SetSetting(QrCustomKey(created[0].id), Strip(customText));
    }
    outcome := Created(created, contents);
  }

  datatype BatchOutcome = CustomTextRequired | BatchGenerated(contents: seq<string>)

  /**
   * "Generate Batch QR Codes" (app.py:279-321). Custom text must not be
   * blank, and then `count` codes carry it and nothing is stored. Otherwise
   * `count` one-time requests worth 5 points each are created, titled by
   * number, each printed with its own form link.
   */
  method GenerateBatch(store: Store, mode: QrMode, customText: string, count: nat, tokens: seq<string>, now: nat)
    returns (outcome: BatchOutcome)
    requires store.Valid()
    requires 1 <= count <= 100 && |tokens| == count
    requires FreshTokens(store.requests, tokens)
    modifies store
    ensures store.Valid()
    ensures outcome == CustomTextRequired <==> mode == CustomText && Strip(customText) == []
    ensures mode == CustomText ==>
      && store.requests == old(store.requests) && store.settings == old(store.settings)
      && store.lastRequestId == old(store.lastRequestId)
    ensures mode == CustomText && outcome.BatchGenerated? ==>
      |outcome.contents| == count && forall i :: 0 <= i < count ==> outcome.contents[i] == Strip(customText)
    ensures mode == AutoUrl ==>
      && outcome.BatchGenerated? && |outcome.contents| == count
      && |store.requests| == |old(store.requests)| + count
      && store.requests[..|old(store.requests)|] == old(store.requests)
      && (forall i :: 0 <= i < count ==>
            store.requests[|old(store.requests)| + i]
              == ConfiguredRow(old(store.lastRequestId) + 1 + i, BatchTitle(i), BatchDescription(i), tokens[i], now, true))
      && (forall i :: 0 <= i < count ==>
            outcome.contents[i] == BuildFormUrl(BaseUrlOr(old(store.settings), BatchFormDefaultBase), tokens[i]))
      && store.settings == PointsSettings(old(store.settings), old(store.lastRequestId) + 1, count, "5")
    ensures store.submissions == old(store.submissions)
  {
    if mode == CustomText {
      if Strip(customText) == [] {
        return CustomTextRequired;
      }
      return BatchGenerated(seq(count, _ => Strip(customText)));
    }
    var base := BaseUrlOr(store.settings, BatchFormDefaultBase);
    var titles := seq(count, i requires 0 <= i < count => BatchTitle(i));
    var descriptions := seq(count, i requires 0 <= i < count => BatchDescription(i));
    var created, contents := CreateAll(store, titles, descriptions, tokens, "5", true, AutoUrl, "", base, now);
    assert store.requests[..|old(store.requests)|] == old(store.requests);
    outcome := BatchGenerated(contents);
  }

  /**
   * The content a listed request's code shows (app.py:413-465): its stored
   * custom text, else the form link on the saved base URL, else the local
   * link on port 8501 of 192.168.1.4.
   */
  function ListedQrContent(settings: map<string, string>, r: Request): string {
    var custom := if QrCustomKey(r.id) in settings then settings[QrCustomKey(r.id)] else "";
    var base := BaseUrlOr(settings, "");
    if custom != [] then custom
    else if base != [] then BuildFormUrl(base, r.token)
    else CreateFormDefaultBase + "?view=form&token=" + r.token
  }

  /**
   * Without custom text the list shows the very link the create form printed
   * for the request, saved base URL or not.
   */
  lemma ListedMatchesCreateForm(settings: map<string, string>, r: Request)
    requires QrCustomKey(r.id) !in settings || settings[QrCustomKey(r.id)] == []
    ensures ListedQrContent(settings, r) == BuildFormUrl(BaseUrlOr(settings, CreateFormDefaultBase), r.token)
  {
    if BaseUrlOr(settings, "") == [] {
      assert '?' !in CreateFormDefaultBase;
      FormUrlText(CreateFormDefaultBase, r.token);
    }
  }

  /** Without custom text, the code the list shows opens the public form for the request's own token. */
  lemma ListedLinkOpensForm(settings: map<string, string>, r: Request)
    requires QrCustomKey(r.id) !in settings || settings[QrCustomKey(r.id)] == []
    requires BaseUrlKey in settings ==> '#' !in settings[BaseUrlKey]
    requires r.token != [] && HexToken(r.token)
    ensures Route(QueryParams(ListedQrContent(settings, r))) == PublicFormPage(r.token)
  {
    assert '#' !in CreateFormDefaultBase;
    ListedMatchesCreateForm(settings, r);
    FormUrlOpensForm(BaseUrlOr(settings, CreateFormDefaultBase), r.token);
  }

  /**
   * With no base URL saved, a batch-generated request is printed with a link
   * on 192.168.1.12 while the list shows one on 192.168.1.4.
   */
  lemma ListedDiffersFromBatchFallback(settings: map<string, string>, r: Request)
    requires QrCustomKey(r.id) !in settings || settings[QrCustomKey(r.id)] == []
    requires BaseUrlOr(settings, "") == []
    ensures ListedQrContent(settings, r) != BuildFormUrl(BaseUrlOr(settings, BatchFormDefaultBase), r.token)
  {
    var local := CreateFormDefaultBase + "?view=form&token=" + r.token;
    assert ListedQrContent(settings, r) == local;
    assert local[17] == '4';
    assert BuildFormUrl(BatchFormDefaultBase, r.token)[17] == '1';
  }
}
