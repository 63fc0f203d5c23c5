/** The template service: an ownership-scoped store of prompt templates and
    the placeholder formatter that turns raw content into a LinkedIn and a
    Twitter variant, keyed by the template's name. */
module TemplateService {
  import opened Wrappers
  import opened Strings
  import opened TemplateText

  type Id = string

  /** A row of the Template table. `id` and `createdAt` are assigned by the
      database when the row is created. */
  datatype Template = Template(
    id: Id,
    name: string,
    description: string,
    platform: string,
    prompt: string,
    userId: Id,
    createdAt: int)

  /** The fields a caller supplies to `createTemplate`. */
  datatype NewTemplate = NewTemplate(
    name: string,
    description: string,
    platform: string,
    prompt: string,
    userId: Id)

  /** The fields of `updateTemplate`; a `None` field is left as it is. */
  datatype TemplatePatch = TemplatePatch(
    name: Option<string>,
    description: Option<string>,
    platform: Option<string>,
    prompt: Option<string>)

  datatype Formatted = Formatted(linkedin: string, twitter: string)

  const TwitterLimit := 280

  predicate IsWrappingName(name: string) {
    name == EngagementQuestion || name == QuickTip || name == TrendingTopic
  }

  predicate IsRuleName(name: string) {
    name == ProfessionalAnnouncement || IsWrappingName(name)
  }

  /** The plain Twitter text: the content itself when it fits in 280
      characters, otherwise its first 277 characters followed by "...". */
  function TwitterDefault(content: string): (r: string)
    ensures |r| <= TwitterLimit
    ensures |content| <= TwitterLimit ==> r == content
    ensures |content| > TwitterLimit ==>
      |r| == TwitterLimit && r[..277] == content[..277] && r[277..] == "..."
    ensures content != [] ==> r != []
  {
    if |content| > TwitterLimit then Slice(content, 277) + "..." else content
  }

  /** The formatting rule of `formatContent`, applied once the template has
      been found. Only the template's name is consulted. */
  function Render(content: string, name: string): Formatted {
    var twitter := TwitterDefault(content);
    if name == ProfessionalAnnouncement then
      Formatted(
        AnnouncementLinkedInHead + content + AnnouncementLinkedInTail,
        AnnouncementTwitterHead + Slice(content, 240) + AnnouncementTwitterTail)
    else if name == EngagementQuestion then
      Formatted(content + EngagementLinkedInTail, twitter + EngagementTwitterTail)
    else if name == QuickTip then
      Formatted(
        QuickTipLinkedInHead + content + QuickTipLinkedInTail,
        QuickTipTwitterHead + twitter + QuickTipTwitterTail)
    else if name == TrendingTopic then
      Formatted(
        TrendingLinkedInHead + content + TrendingLinkedInTail,
        TrendingTwitterHead + twitter + TrendingTwitterTail)
    else
      Formatted(content, twitter)
  }

  /** A name that selects no rule leaves the LinkedIn text as the content and
      gives the plain Twitter text, which fits in 280 characters. */
  lemma PlainRule(content: string, name: string)
    requires !IsRuleName(name)
    ensures Render(content, name).linkedin == content
    ensures Render(content, name).twitter == TwitterDefault(content)
    ensures |Render(content, name).twitter| <= TwitterLimit
  {
  }

  /** Whatever the rule, the LinkedIn text contains the whole content. */
  lemma LinkedInKeepsContent(content: string, name: string)
    ensures Contains(Render(content, name).linkedin, content)
  {
    if name == ProfessionalAnnouncement {
      ContainsMiddle(AnnouncementLinkedInHead, content, AnnouncementLinkedInTail);
    } else if name == EngagementQuestion {
      ContainsMiddle([], content, EngagementLinkedInTail);
      assert [] + content == content;
    } else if name == QuickTip {
      ContainsMiddle(QuickTipLinkedInHead, content, QuickTipLinkedInTail);
    } else if name == TrendingTopic {
      ContainsMiddle(TrendingLinkedInHead, content, TrendingLinkedInTail);
    } else {
      ContainsMiddle([], content, []);
      assert [] + content + [] == content;
    }
  }

  /** Non-empty content gives non-empty text for both platforms. */
  lemma NonEmptyOutput(content: string, name: string)
    requires content != []
    ensures Render(content, name).linkedin != [] && Render(content, name).twitter != []
  {
  }

  /** "Professional Announcement" keeps the first 240 characters of the
      content on Twitter and all of it on LinkedIn. */
  lemma AnnouncementShape(content: string)
    ensures Render(content, ProfessionalAnnouncement).twitter
      == "Announcement: " + Slice(content, 240) + "\n\n#Announcement"
    ensures Render(content, ProfessionalAnnouncement).linkedin
      == "I'm excited to announce: " + content + "\n\n#ProfessionalAnnouncement #Career"
    ensures |Render(content, ProfessionalAnnouncement).twitter| <= 269
  {
  }

  /** For the three wrapping rules the Twitter text is the plain Twitter text
      inside a frame that does not depend on the content: the frame is what
      the rule produces for empty content. */
  lemma WrappedTwitter(content: string, name: string)
    requires IsWrappingName(name)
    ensures var frame := Render([], name).twitter;
      exists k :: 0 <= k <= |frame|
        && Render(content, name).twitter == frame[..k] + TwitterDefault(content) + frame[k..]
  {
    var t := TwitterDefault(content);
    var frame := Render([], name).twitter;
    assert TwitterDefault([]) == [];
    var pre, suf;
    if name == EngagementQuestion {
      pre, suf := [], EngagementTwitterTail;
      assert Render(content, name).twitter == [] + t + suf;
    } else if name == QuickTip {
      pre, suf := QuickTipTwitterHead, QuickTipTwitterTail;
      assert Render(content, name).twitter == pre + t + suf;
    } else {
      pre, suf := TrendingTwitterHead, TrendingTwitterTail;
      assert Render(content, name).twitter == pre + t + suf;
    }
    assert frame == pre + [] + suf;
    FramedAt(pre, t, suf);
    assert Render(content, name).twitter == frame[..|pre|] + t + frame[|pre|..];
  }

  /** For the three wrapping rules the Twitter text is the plain Twitter text
      plus the frame, so it can be longer than 280 characters (up to 326 for
      "Engagement Question"). */
  lemma WrappedTwitterLength(content: string, name: string)
    requires IsWrappingName(name)
    ensures |Render(content, name).twitter| == |TwitterDefault(content)| + |Render([], name).twitter|
    ensures |Render(content, name).twitter| <= TwitterLimit + |Render([], name).twitter|
  {
    WrappedTwitter(content, name);
  }

  /** Splitting the frame `pre + suf` after `pre` and putting `mid` between
      the halves gives `pre + mid + suf`. */
  lemma FramedAt(pre: string, mid: string, suf: string)
    ensures var frame := pre + [] + suf;
      frame[..|pre|] + mid + frame[|pre|..] == pre + mid + suf
  {
    var frame := pre + [] + suf;
    assert frame[..|pre|] == pre;
    assert frame[|pre|..] == suf;
  }

  /** The texts of the "Quick Tip" rule for "Hello world". */
  lemma QuickTipExample()
    ensures Render("Hello world", QuickTip).linkedin
      == "Quick tip for professionals:\n\n" + "Hello world" + "\n\n#QuickTip #ProfessionalAdvice"
    ensures Render("Hello world", QuickTip).twitter
      == "Pro tip: " + "Hello world" + "\n\n#QuickTip"
  {
    assert TwitterDefault("Hello world") == "Hello world";
  }

  /** The outcome of `updateTemplate` on a snapshot of the table: the
      template is changed only if it exists and belongs to `userId`, and then
      only in the supplied fields. */
  function ApplyPatch(t: Template, patch: TemplatePatch): (r: Template)
    ensures r.id == t.id && r.userId == t.userId && r.createdAt == t.createdAt
    ensures r.name == (if patch.name.Some? then patch.name.value else t.name)
    ensures r.description == (if patch.description.Some? then patch.description.value else t.description)
    ensures r.platform == (if patch.platform.Some? then patch.platform.value else t.platform)
    ensures r.prompt == (if patch.prompt.Some? then patch.prompt.value else t.prompt)
  {
    t.(name := patch.name.GetOr(t.name),
       description := patch.description.GetOr(t.description),
       platform := patch.platform.GetOr(t.platform),
       prompt := patch.prompt.GetOr(t.prompt))
  }

  predicate Owns(m: map<Id, Template>, id: Id, userId: Id) {
    id in m && m[id].userId == userId
  }

  /** `updateTemplate(id, userId, patch)` on table `m`: the outcome and the
      table afterwards. */
  function Update(m: map<Id, Template>, id: Id, userId: Id, patch: TemplatePatch)
    : (r: (Result<Template, string>, map<Id, Template>))
    ensures r.0.Ok? <==> Owns(m, id, userId)
    ensures r.0.Err? ==> r.0.error == NotOwnedMessage && r.1 == m
    ensures r.0.Ok? ==> r.1.Keys == m.Keys && r.1[id] == r.0.value && r.0.value == ApplyPatch(m[id], patch)
    ensures forall k :: k in m && k != id ==> k in r.1 && r.1[k] == m[k]
    ensures forall k :: k in m && m[k].userId != userId ==> k in r.1 && r.1[k] == m[k]
  {
    if Owns(m, id, userId) then
      var t := ApplyPatch(m[id], patch);
      (Ok(t), m[id := t])
    else
      (Err(NotOwnedMessage), m)
  }

  /** `deleteTemplate(id, userId)` on table `m`: the outcome (the deleted row)
      and the table afterwards. */
  function Delete(m: map<Id, Template>, id: Id, userId: Id)
    : (r: (Result<Template, string>, map<Id, Template>))
    ensures r.0.Ok? <==> Owns(m, id, userId)
    ensures r.0.Err? ==> r.0.error == NotOwnedMessage && r.1 == m
    ensures r.0.Ok? ==> r.0.value == m[id] && r.1.Keys == m.Keys - {id}
    ensures forall k :: k in m && k != id ==> k in r.1 && r.1[k] == m[k]
    ensures forall k :: k in m && m[k].userId != userId ==> k in r.1 && r.1[k] == m[k]
  {
    if Owns(m, id, userId) then (Ok(m[id]), m - {id}) else (Err(NotOwnedMessage), m)
  }

  /** No two rows share an id. */
  predicate DistinctIds(s: seq<Template>) {
    forall i, j :: 0 <= i < j < |s| ==> s[i].id != s[j].id
  }

  /** Ordered by `createdAt`, newest first. */
  predicate NewestFirst(s: seq<Template>) {
    forall i, j :: 0 <= i < j < |s| ==> s[i].createdAt >= s[j].createdAt
  }

  /** Insert `t` into a newest-first list, after the rows at least as new. */
  function InsertNewestFirst(t: Template, s: seq<Template>): (r: seq<Template>)
    requires NewestFirst(s)
    ensures NewestFirst(r)
    ensures |r| == |s| + 1
    ensures multiset(r) == multiset(s) + multiset{t}
    ensures forall x :: x in r <==> x in s || x == t
    ensures DistinctIds(s) && (forall x :: x in s ==> x.id != t.id) ==> DistinctIds(r)
  {
    if s == [] || s[0].createdAt < t.createdAt then
      InsertInFront(t, s);
      [t] + s
    else
      var rest := InsertNewestFirst(t, s[1..]);
      InsertAfterHead(t, s, rest);
      assert s == [s[0]] + s[1..];
      [s[0]] + rest
  }

  /** The insertion step when `t` is newer than every row. */
  lemma InsertInFront(t: Template, s: seq<Template>)
    requires NewestFirst(s) && (s == [] || s[0].createdAt < t.createdAt)
    ensures NewestFirst([t] + s)
    ensures forall x :: x in [t] + s <==> x in s || x == t
    ensures DistinctIds(s) && (forall x :: x in s ==> x.id != t.id) ==> DistinctIds([t] + s)
  {
    forall y | y in s ensures t.createdAt >= y.createdAt {
      var k :| 0 <= k < |s| && s[k] == y;
      assert k == 0 || s[0].createdAt >= s[k].createdAt;
    }
    PrependNewest(t, s);
  }

  /** The insertion step when the head stays in front: `rest` is `t`
      inserted into the tail. */
  lemma InsertAfterHead(t: Template, s: seq<Template>, rest: seq<Template>)
    requires NewestFirst(s) && s != [] && s[0].createdAt >= t.createdAt
    requires NewestFirst(rest) && forall x :: x in rest <==> x in s[1..] || x == t
    requires DistinctIds(s[1..]) && (forall x :: x in s[1..] ==> x.id != t.id) ==> DistinctIds(rest)
    ensures NewestFirst([s[0]] + rest)
    ensures forall x :: x in [s[0]] + rest <==> x in s || x == t
    ensures DistinctIds(s) && (forall x :: x in s ==> x.id != t.id) ==> DistinctIds([s[0]] + rest)
  {
    forall y | y in rest ensures s[0].createdAt >= y.createdAt {
      if y in s[1..] {
        var k :| 0 <= k < |s[1..]| && s[1..][k] == y;
        assert s[k + 1] == y;
      }
    }
    TailKeepsDistinct(s, t, rest);
    PrependNewest(s[0], rest);
    assert s == [s[0]] + s[1..];
  }

  /** When the ids of `s` and `t` are distinct, nothing inserted after the
      head shares the head's id. */
  lemma TailKeepsDistinct(s: seq<Template>, t: Template, rest: seq<Template>)
    requires s != []
    requires forall x :: x in rest <==> x in s[1..] || x == t
    ensures DistinctIds(s) && (forall x :: x in s ==> x.id != t.id) ==>
      DistinctIds(s[1..]) && (forall x :: x in s[1..] ==> x.id != t.id)
      && (forall y :: y in rest ==> y.id != s[0].id)
  {
    if DistinctIds(s) && (forall x :: x in s ==> x.id != t.id) {
      forall i, j | 0 <= i < j < |s[1..]| ensures s[1..][i].id != s[1..][j].id {
        assert s[1..][i] == s[i + 1] && s[1..][j] == s[j + 1];
      }
      forall y | y in rest ensures y.id != s[0].id {
        if y in s[1..] {
          var k :| 0 <= k < |s[1..]| && s[1..][k] == y;
          assert s[k + 1] == y;
        }
      }
    }
  }

  /** A row at least as new as every row of a newest-first list can go in
      front of it; the ids stay distinct when its id is new. */
  lemma PrependNewest(x: Template, s: seq<Template>)
    requires NewestFirst(s) && forall y :: y in s ==> x.createdAt >= y.createdAt
    ensures NewestFirst([x] + s)
    ensures DistinctIds(s) && (forall y :: y in s ==> y.id != x.id) ==> DistinctIds([x] + s)
  {
    var r := [x] + s;
    forall j | 0 < j < |r| ensures r[j] == s[j - 1] && r[j] in s {
    }
  }

  /** The Template table, as seen through the service's functions. */
  class TemplateStore {
    var templates: map<Id, Template>

    /** Every row is stored under its own id. */
    ghost predicate Valid()
      reads this
    {
      forall id :: id in templates ==> templates[id].id == id
    }

    constructor ()
      ensures Valid() && templates == map[]
    {
      templates := map[];
    }

    /** `createTemplate(data)`; the database supplies the fresh `id` and the
        `createdAt` timestamp. */
    method CreateTemplate(data: NewTemplate, id: Id, createdAt: int) returns (t: Template)
      requires Valid() && id !in templates
      modifies this
      ensures Valid()
      ensures t == Template(id, data.name, data.description, data.platform, data.prompt, data.userId, createdAt)
      ensures templates == old(templates)[id := t]
    {
      t := Template(id, data.name, data.description, data.platform, data.prompt, data.userId, createdAt);
      templates := templates[id := t];
    }

    /** `getTemplates(userId)`: exactly the caller's templates, each once,
        newest first. The scan stands for the database's filtered, ordered
        query. */
    method GetTemplates(userId: Id) returns (r: seq<Template>)
      requires Valid()
      ensures forall t :: t in r <==> t in templates.Values && t.userId == userId
      ensures DistinctIds(r)
      ensures NewestFirst(r)
    {
      r := [];
      var rest := templates.Keys;
      while rest != {}
        invariant rest <= templates.Keys
        invariant NewestFirst(r) && DistinctIds(r)
        invariant forall t :: t in r <==> t in templates.Values && t.userId == userId && t.id !in rest
        decreases rest
      {
        var k :| k in rest;
        var t := templates[k];
        if t.userId == userId {
          r := InsertNewestFirst(t, r);
        }
        rest := rest - {k};
      }
    }

    /** `getTemplateById(id, userId)`: the template with this id, provided it
        belongs to `userId`. */
    function GetTemplateById(id: Id, userId: Id): (r: Option<Template>)
      reads this
      requires Valid()
      ensures r.Some? ==> r.value in templates.Values && r.value.id == id && r.value.userId == userId
      ensures r.None? ==> forall t :: t in templates.Values ==> !(t.id == id && t.userId == userId)
    {
      if Owns(templates, id, userId) then Some(templates[id]) else None
    }

    /** `updateTemplate(id, userId, patch)`. */
    method UpdateTemplate(id: Id, userId: Id, patch: TemplatePatch) returns (r: Result<Template, string>)
      requires Valid()
      modifies this
      ensures Valid()
      ensures (r, templates) == Update(old(templates), id, userId, patch)
    {
      var res := Update(templates, id, userId, patch);
      r, templates := res.0, res.1;
    }

    /** `deleteTemplate(id, userId)`. */
    method DeleteTemplate(id: Id, userId: Id) returns (r: Result<Template, string>)
      requires Valid()
      modifies this
      ensures Valid()
      ensures (r, templates) == Delete(old(templates), id, userId)
    {
      var res := Delete(templates, id, userId);
      r, templates := res.0, res.1;
    }

    /** `formatContent(content, templateId, userId)`: fails with "Template not
        found" unless the caller owns a template with that id; otherwise the
        result depends on the content and the template's name alone. */
    function FormatContent(content: string, templateId: Id, userId: Id): (r: Result<Formatted, string>)
      reads this
      requires Valid()
      ensures r.Err? <==> GetTemplateById(templateId, userId).None?
      ensures r.Err? ==> r.error == NotFoundMessage
      ensures r.Ok? ==> r.value == Render(content, GetTemplateById(templateId, userId).value.name)
      ensures r.Ok? ==> Contains(r.value.linkedin, content)
    {
      match GetTemplateById(templateId, userId)
      case None => Err(NotFoundMessage)
      case Some(t) =>
        LinkedInKeepsContent(content, t.name);
        Ok(Render(content, t.name))
    }
  }
}
