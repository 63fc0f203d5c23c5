# brain-cast core, modelled in Dafny

brain-cast turns a piece of raw text into a LinkedIn post and a tweet using a
prompt template chosen by the user. This project models the deterministic
part of that pipeline and proves what it promises:

- **Template service** (`template_service.dfy`, texts in `template_text.dfy`).
  The Template table is a class over a map from id to row. Creating a row
  adds exactly that row. Reading is scoped to the owner, and so are updating
  and deleting; a missing or foreign id fails with "Template not found or not
  owned by user" and changes nothing. `getTemplates` returns exactly the
  caller's rows, each once, newest first. `formatContent` is the placeholder
  formatter: it fails with "Template not found" unless the caller owns the
  template. Otherwise it wraps the content according to the template's name. Under
  a name that selects no rule, the LinkedIn text is the content and the
  tweet is the content cut to 280 characters, ending in "..." when cut.
  "Professional Announcement" frames the whole content on LinkedIn and its
  first 240 characters, without "...", on Twitter. The three other named
  rules put fixed texts around the content on LinkedIn and around the cut
  tweet on Twitter, so their tweets can be longer than 280 characters.
- **Language-model service** (`openai_service.dfy`, prompts in
  `openai_prompts.dfy`). The lazily created client is a class with a nullable
  field; a missing or empty key fails and leaves it unset. The system prompt
  embeds every template field and the optional extra instructions, and the
  user prompt quotes the raw content. The answer is validated: there must be
  content, it must parse as JSON, and both `linkedin` and `twitter` must be
  truthy. Every failure maps to one user-facing error; the rules are tried in
  order (quota, authentication, missing key, then the generic prefix). No
  failure yields a substitute result.
- **Editor hook** (`content_editor.dfy`). It holds the raw content, the
  per-platform output and the "generating" flag. Generation is refused,
  changing nothing, when the content is blank or no template is chosen. A
  success replaces the output, a failure keeps it, and the flag is cleared
  either way.
- **Template picker hook** (`template_selection.dfy`, built-in texts in
  `default_template_text.dfy`). The templates come from the server; when
  that fails, the three built-in templates are used with a fixed error
  message. The displayed name is that of the first template with the
  selected id, or "Select Template".
- **Social connections hook** (`social_connections.dfy`). There are two flags,
  initialised from the integrations list, and the connect handlers only ever
  switch a flag on.

`strings.dfy` holds the JavaScript string operations the code relies on:
`slice`, `includes` and `trim`, with the full ECMAScript set of white-space
and line-terminator characters. `wrappers.dfy` holds `Option` and `Result`.

The network, the clock and the database's id generator are inputs. The
chat-completion call is a function parameter `llm`, and `JSON.parse` is a
function parameter `parse`. `process.env.OPENAI_API_KEY` is an optional
string argument. The outcome of the client-side `getTemplates` and
`formatContent` requests is an argument of the hook methods. The database
supplies each new row's `id` and `createdAt`, and `new Date().toISOString()`
is the `now` the picker is created with.

## Model

| member | source | states |
|---|---|---|
| TemplateService.TemplateStore.CreateTemplate | src/services/template.service.ts:10-20 | the new row carries the caller's fields under the fresh id; exactly that row is added and the store stays well formed |
| TemplateService.TemplateStore.GetTemplates | src/services/template.service.ts:22-31 | the result holds exactly the caller's rows, no id twice, ordered by `createdAt` descending |
| TemplateService.InsertNewestFirst | src/services/template.service.ts:27-29 | inserting a row into a newest-first list keeps it newest first, adds exactly that row and keeps ids distinct |
| TemplateService.TemplateStore.GetTemplateById | src/services/template.service.ts:33-40 | a row is returned only if both its id and its owner match, and None means no such row exists |
| TemplateService.ApplyPatch | src/services/template.service.ts:42-63 | the supplied fields are replaced, every other field (id, owner, creation time included) is kept |
| TemplateService.Update | src/services/template.service.ts:42-64 | succeeds iff the caller owns the id; on failure the error is "Template not found or not owned by user" and the table is unchanged; on success only that row changes, by the patch; rows of other users are untouched |
| TemplateService.TemplateStore.UpdateTemplate | src/services/template.service.ts:42-64 | the result and the new table are those of `Update` on the old table |
| TemplateService.Delete | src/services/template.service.ts:66-82 | succeeds iff the caller owns the id; on failure nothing is removed; on success exactly that row is removed and returned; rows of other users are untouched |
| TemplateService.TemplateStore.DeleteTemplate | src/services/template.service.ts:66-82 | the result and the new table are those of `Delete` on the old table |
| TemplateService.TemplateStore.FormatContent | src/services/template.service.ts:84-119 | fails with "Template not found" exactly when the caller owns no template with that id; otherwise the output depends only on the content and the template's name (not its platform), and the LinkedIn text contains the content |
| TemplateService.Render | src/services/template.service.ts:95-118 | the formatting once the template is found: exactly one rule, chosen by exact equality of the template's name, decides both texts (properties in the rows below) |
| TemplateService.TwitterDefault | src/services/template.service.ts:97 | the tweet fits in 280 characters; short content is kept as is; longer content becomes its first 277 characters followed by "..." |
| TemplateService.PlainRule | src/services/template.service.ts:95-113 | a name matching none of the four rules leaves the LinkedIn text as the content and gives the truncated tweet |
| TemplateService.LinkedInKeepsContent | src/services/template.service.ts:95-113 | under every rule the LinkedIn text contains the whole content |
| TemplateService.NonEmptyOutput | src/services/template.service.ts:95-118 | non-empty content gives non-empty text for both platforms |
| TemplateService.AnnouncementShape | src/services/template.service.ts:101-103 | "Professional Announcement" gives the announcement texts, with the first 240 characters on Twitter, so the tweet is at most 269 characters |
| TemplateService.WrappedTwitter | src/services/template.service.ts:104-112 | for the three wrapping rules the tweet is the truncated tweet placed inside a frame that does not depend on the content |
| TemplateService.WrappedTwitterLength | src/services/template.service.ts:104-112 | for the three wrapping rules the tweet's length is the truncated tweet's length plus the frame's, so it can exceed 280 |
| TemplateService.QuickTipExample | src/services/template.service.ts:107-109 | "Quick Tip" on "Hello world" gives the texts of lines 108-109, hashtags included |
| Strings.Slice | src/services/template.service.ts:97 | `slice(0, n)` keeps a prefix of length min(n, length) |
| Strings.Contains | src/services/openai.service.ts:113-119 | `includes`: the pattern occurs at some position |
| Strings.Trim | src/hooks/useContentEditor.ts:19 | `trim()`: leading and trailing white space and line terminators removed |
| Strings.TrimEmptyIffBlank | src/hooks/useContentEditor.ts:19 | `trim()` gives "" exactly when the string consists of white space and line terminators only |
| OpenAIService.ClientCache.constructor | src/services/openai.service.ts:3 | `let openai = null`: the cache starts empty |
| OpenAIService.ClientCache.GetOpenAIClient | src/services/openai.service.ts:3-16 | a cached client is returned unchanged without reading the key; without one, a missing or empty key fails with the "not set" message and leaves the cache empty; otherwise a new client with that key is created, cached and returned |
| OpenAIService.CachedClientIsReused | src/services/openai.service.ts:5-16 | once a call has succeeded, the next call returns the very same client whatever the key is by then; a first failure happens only with an empty cache |
| OpenAIPrompts.AdditionalInstructions | src/services/openai.service.ts:34-38 | omitted extra instructions are embedded as "" and given ones as they are |
| OpenAIPrompts.SystemPrompt | src/services/openai.service.ts:40-70 | the system prompt text built from the template fields and the extra instructions |
| OpenAIPrompts.UserPrompt | src/services/openai.service.ts:72-74 | the user prompt text built around the raw content |
| OpenAIPrompts.BuildPrompts | src/services/openai.service.ts:34-74 | the two prompts of a request, with omitted extra instructions taken as "" |
| OpenAIPrompts.SystemPromptEmbedsTemplate | src/services/openai.service.ts:40-70 | the system prompt contains the template's name, description, platform and prompt, and the extra instructions, each after its label |
| OpenAIPrompts.UserPromptQuotesContent | src/services/openai.service.ts:72-74 | the user prompt contains the raw content between double quotes |
| OpenAIService.Attempt | src/services/openai.service.ts:76-107 | the body of the `try` succeeds iff a client exists and the answer has content that parses to an object whose `linkedin` and `twitter` are both truthy; the parsed object is then returned unchanged; a missing client's error and an error thrown by the chat call are passed on as they are |
| OpenAIService.Truthy | src/services/openai.service.ts:103 | JavaScript truthiness of a property: absent is false, a string is truthy when non-empty |
| OpenAIService.Acceptable | src/services/openai.service.ts:86-107 | an answer passes validation when its content is present and non-empty, parses as JSON to an object, and both `linkedin` and `twitter` are truthy |
| OpenAIService.MapError | src/services/openai.service.ts:108-124 | the `catch` block: the first matching rule gives the user-facing message, a non-`Error` gives "Unknown error" behind the generic prefix |
| OpenAIService.ProcessContent | src/services/openai.service.ts:107-125 | success passes the parsed object on unchanged; every failure becomes the mapped error and never a substitute result |
| OpenAIService.MapErrorPriority | src/services/openai.service.ts:112-124 | "429" or "quota" gives the quota error; otherwise "401" or "authentication" gives the authentication error; otherwise "OPENAI_API_KEY" gives the not-configured error; otherwise the message follows "Content processing failed: " |
| OpenAIService.PlainMessage | src/services/openai.service.ts:112-124 | a message that contains none of '4', 'q', 'h', '_' (each keyword has one of them) is passed on behind the generic prefix |
| OpenAIService.MissingKeyMapping | src/services/openai.service.ts:119-121 | the missing-key message maps to the not-configured error |
| OpenAIService.MissingKeyIsNotConfigured | src/services/openai.service.ts:119-121 | a missing key surfaces from processing as the not-configured error |
| OpenAIService.NoResponseIsPlain | src/services/openai.service.ts:88-90 | "No response from OpenAI" reaches the user behind the generic prefix |
| OpenAIService.InvalidFormatIsPlain | src/services/openai.service.ts:94-100 | "Invalid response format from OpenAI" reaches the user behind the generic prefix |
| OpenAIService.IncompleteIsPlain | src/services/openai.service.ts:103-105 | "Incomplete response from OpenAI" reaches the user behind the generic prefix |
| OpenAIService.NullPropertyIsPlain | src/services/openai.service.ts:103 | the `TypeError` of reading `linkedin` of `null` reaches the user behind the generic prefix |
| OpenAIService.CallFailureIsMapped | src/services/openai.service.ts:76-84 | an error thrown by the chat-completion call is exactly what the mapping receives |
| OpenAIService.QuotaAndAuthFromCall | src/services/openai.service.ts:76-84 | a chat call failing with a message that mentions "quota" ends as the quota error; one that mentions "authentication" and has no '4' or 'q' ends as the authentication error |
| OpenAIService.ValidationFailures | src/services/openai.service.ts:86-105 | absent or empty content, content that is not JSON, JSON `null` (whose `linkedin` cannot be read), and an object lacking a truthy `linkedin` or `twitter` each end as "Content processing failed: " followed by the specific cause |
| OpenAIService.ProcessContentWithOpenAI | src/services/openai.service.ts:34-126 | with a cached client or a usable key the outcome is that of processing the two prompts built from the request; with neither it is the not-configured error; a cached client stays cached, a usable key leaves a new client with that key cached, and without either the cache stays empty |
| ContentEditor.Editor.constructor | src/hooks/useContentEditor.ts:10-15 | the raw content and both outputs start empty, nothing is generating, and there is no generated content |
| ContentEditor.Editor.SetRawContent | src/hooks/useContentEditor.ts:10 | sets the raw content and nothing else |
| ContentEditor.Editor.SetFormattedContent | src/hooks/useContentEditor.ts:11-14 | sets the output and nothing else |
| ContentEditor.CanGenerate | src/hooks/useContentEditor.ts:19 | the guard: `rawContent.trim()` and the selected template id are both truthy |
| ContentEditor.CanGenerateIff | src/hooks/useContentEditor.ts:19 | generation is allowed exactly when the content is not blank and a non-empty template id is given |
| ContentEditor.Editor.GenerateContent | src/hooks/useContentEditor.ts:18-39 | a refused guard returns nothing and changes nothing; otherwise the result says whether formatting succeeded, a success replaces the output with the returned pair, a failure keeps it, the raw content is kept and the flag ends cleared; afterwards there is generated content iff the returned pair has a non-empty text (on success) or there was before (on failure) |
| ContentEditor.WithText | src/hooks/useContentEditor.ts:41-46 | the chosen platform gets the new text and the other platform keeps its own |
| ContentEditor.Editor.UpdateFormattedContent | src/hooks/useContentEditor.ts:41-50 | the output becomes `WithText` of the old output; the raw content and the flag are kept; afterwards there is generated content iff the new text or the other platform's old text is non-empty |
| ContentEditor.Editor.HasGeneratedContent | src/hooks/useContentEditor.ts:48-50 | `Boolean(linkedin || twitter)`: true exactly when some platform's text is non-empty |
| ContentEditor.HasTextAfterWrite | src/hooks/useContentEditor.ts:41-50 | after writing one platform there is generated content iff the new text or the other platform's text is non-empty |
| TemplateSelection.FirstWithId | src/hooks/useTemplateSelection.ts:64 | `find` by id: None iff no template has the id; otherwise the position of the first one that has it |
| TemplateSelection.SelectedName | src/hooks/useTemplateSelection.ts:62-66 | "Select Template" when nothing (or "") is selected or no template has the selected id |
| TemplateSelection.SelectedNameIsFirstMatch | src/hooks/useTemplateSelection.ts:62-66 | a selected id some template carries shows the name of the first template with that id |
| TemplateSelection.DefaultTemplates | src/hooks/useTemplateSelection.ts:5-33 | `DEFAULT_TEMPLATES`: the three built-in templates with their ids, names, descriptions, platforms and prompts |
| TemplateSelection.FallbackOffersDefaults | src/hooks/useTemplateSelection.ts:5-33 | in the built-in list each of the three ids shows its own name and any other id shows "Select Template" |
| TemplateSelection.Selector.GetSelectedTemplateName | src/hooks/useTemplateSelection.ts:62-66 | `getSelectedTemplateName()`: `SelectedName` of the current templates and selection |
| TemplateSelection.Selector.constructor | src/hooks/useTemplateSelection.ts:36-39 | no templates, no selection, loading, no error |
| TemplateSelection.Selector.FetchTemplates | src/hooks/useTemplateSelection.ts:42-59 | a successful fetch installs the fetched list with no error; a failed one installs the three built-in templates and the fallback message; loading ends either way and the selection is kept |
| TemplateSelection.Selector.RetryFetch | src/hooks/useTemplateSelection.ts:69-84 | the same outcomes as the first fetch, after clearing the error |
| TemplateSelection.Selector.SetSelectedTemplate | src/hooks/useTemplateSelection.ts:37 | sets the selection and nothing else |
| SocialConnections.AnyConnected | src/hooks/useSocialConnections.ts:5-12 | `some`: true iff some integration for the platform is connected |
| SocialConnections.MockIntegrations | src/lib/mock-data.ts:112-125 | `mockSocialIntegrations`: a connected LinkedIn integration and an unconnected Twitter one |
| SocialConnections.ShippedFlags | src/lib/mock-data.ts:112-125 | with the shipped integrations LinkedIn starts connected and Twitter does not |
| SocialConnections.Connections.constructor | src/hooks/useSocialConnections.ts:5-12 | each flag starts as whether some integration for its platform is connected |
| SocialConnections.Connections.HandleConnectLinkedin | src/hooks/useSocialConnections.ts:14-19 | LinkedIn is on afterwards whatever it was, so repeating it changes nothing; Twitter is kept; some platform is connected |
| SocialConnections.Connections.IsAnyPlatformConnected | src/hooks/useSocialConnections.ts:28-30 | true exactly when LinkedIn or Twitter is connected |
| SocialConnections.Connections.HandleConnectTwitter | src/hooks/useSocialConnections.ts:21-26 | Twitter is on afterwards whatever it was; LinkedIn is kept; some platform is connected |

## Left out

- The chat-completion network call and its settings (model name, the 0.7 temperature, the 1500-token ceiling) are not modelled; the answer is the input `llm`.
- `validateOpenAIConnection` is left out: it only reports whether a network call to list models succeeds.
- `JSON.parse` is the input `parse`. Its outcome is kept only to the extent the code looks at it: not JSON, `null`, or a value with or without truthy `linkedin` and `twitter` properties. Parsing a non-object such as a number or a string is an outcome without either property.
- `console.error` and `console.warn` logging is left out.
- Asynchrony is not modelled. Each hook operation runs to completion as one method, so the intermediate renders (for example `isGenerating` being true while the request is pending) and interleavings of overlapping requests are not captured.
- TemplateService.TemplateStore.GetTemplates: the database's filtered, ordered query is modelled by a scan of the map. Rows with equal `createdAt` may come out in either order, since the database does not fix that order either.
- TemplateService.TemplateStore.CreateTemplate: the `id` and `createdAt` the database generates are parameters, and the id is required to be unused; `updatedAt` is not modelled.
- TemplateService.TemplateStore.CreateTemplate: always succeeds. The database's unique constraint on a template's name and platform (the `name_platform` key used in prisma/seed.js) and database failures make `prisma.template.create` throw; the schema that defines the constraint is not part of this model.
- TemplateService.Update: succeeds whenever the caller owns the row. A patch that clashes with the unique `name_platform` key, or a database failure, makes `prisma.template.update` throw; neither is modelled. `updatedAt`, which the database refreshes on update, is not modelled either, so "every other field is kept" covers only the modelled fields.
- TemplateService.ApplyPatch: `updatedAt` is not a modelled field, so the row's refreshed update time is not captured.
- TemplateService.TemplateStore.UpdateTemplate: inherits the omissions of `Update` (constraint clashes, database failures, `updatedAt`).
- TemplateService.Delete: database failures of `prisma.template.delete` are not modelled.
- TemplateSelection.Selector.FetchTemplates: every built-in template's dates are the single `now` given to the picker, whereas the code calls `new Date()` once per date field when the module loads.
- Strings.Slice: lengths count characters. JavaScript counts UTF-16 code units, so a character outside the Basic Multilingual Plane counts once here and twice in the code.
- The HTTP routes, the client-side request helpers and the UI that call these functions are not part of this model.
