# SchedAI schedule-review application, modelled in Dafny

SchedAI is a browser application for project planners. A user pastes schedule
data or drops a file or Gantt screenshot on the agent screen, picks a planning
standard (DCMA 14-point, Saudi Aramco, FIDIC, PMI or general best practice),
and the application asks Gemini for a JSON review. The review covers risk
level, findings, non-compliance, recommendations and a contractor letter. The
dashboard shows the review, lets the user edit it in English or Arabic, and
filters the activity register. Sign-in goes through Supabase. API keys come
from three places: the build environment, a runtime `env.js`, or keys the user
saves in the browser's local storage.

The model has one module per source file:

- `GeminiService`: key discovery, prompt construction and the analysis call.
- `SupabaseClient`: when sign-in is available.
- `SettingsModal`: loading and saving the user's API keys.
- `ReportDashboard`: localisation, filtering and editing of a review.
- `AuthModal`: the sign-in, register and reset dialog.
- `PMCAgent`: the analysis screen.
- `App`: routing behind the sign-in gate, theme and language.
- `StandardCriteriaModal`: a standard's criteria.
- `Pricing`: the pricing page.
- `Constants`: the constant tables.

Shared modules hold the JavaScript behaviour the code relies on:

- `Text`: `indexOf`, `includes`, `trim` with the JavaScript white-space set, ASCII case mapping, UTF-16 `length`.
- `Js`: JSON-like values, truthiness, property access, object spread, and the number conversion behind `<`.
- `Browser`: environment lookup, `||` on optional strings, and `localStorage` as a class.
- `Placeholders`: ties the three placeholder rules to the values `env.js` installs.

Where state is updated in place, the model uses a class:

- `LocalStorage`
- the settings dialog
- the dashboard
- the sign-in dialog
- the agent screen
- the application shell
- the pricing page

Each class method is specified against the pure functions, and the properties are proved about those functions.

The application makes one Gemini call per analysis and passes its reply through one `JSON.parse`. It has no retry or back-off, no adapter for any other AI provider, and no recovery of malformed JSON: any failure is reported as it comes.

Observations the proofs make explicit:

- The three placeholder rules differ. The Gemini key rejects values that start with `__VITE` or `YOUR_`. The settings dialog rejects only a `__VITE` prefix. Supabase rejects `__VITE` anywhere in the value.
- Once a non-empty non-image file is loaded, typing in the text area does not change what an analysis sends. The file's content keeps priority.
- A plan card falls back to monthly pricing. Choosing the plan does not fall back: it reads the current cycle's pricing directly.
- The printed report header falls back to "General". The prompt falls back to "General Best Practices".

## Model

| member | source | states |
|---|---|---|
| Text.IndexOf | services/geminiService.js:75-76 | `indexOf` returns the first index at which the pattern occurs, or -1 exactly when it does not occur (`includes` is false) |
| Text.TrimEmptyIffBlank | components/PMCAgent.js:19 | a string trims to the empty string exactly when every character is JavaScript white space |
| Text.Utf16Length | components/AuthModal.js:105 | `length` counts UTF-16 code units: between the number of characters and twice it, and equal to it exactly when no character lies above U+FFFF |
| Browser.Or | services/geminiService.js:6 | `a \|\| b` on optional strings: `a` when it is a non-empty string, else `b`, and the result is non-empty iff either is |
| Browser.LocalStorage.SetItem | components/SettingsModal.js:66 | stores the value under the key and changes no other entry |
| Browser.LocalStorage.RemoveItem | components/SettingsModal.js:68 | removes the key and changes no other entry |
| Constants.ParseAppView | constants.js:4-11 | a view string is parsed to the view with that value, and to none exactly when no view has it |
| Constants.AppViewValuesDistinct | constants.js:4-11 | distinct views have distinct strings, and each view parses back from its own string |
| Constants.LanguageCodesDistinct | constants.js:13-16 | the English and Arabic codes differ |
| Constants.AiProvidersWellFormed | constants.js:18-83 | provider ids are pairwise distinct and every provider's default model is among its own models |
| Constants.PlanningStandardsWellFormed | constants.js:85-91 | standard ids are pairwise distinct, `general` is among them, and every name is given in both languages |
| Constants.DcmaDetailBilingual | constants.js:95-159 | every DCMA title, description and criterion text is non-empty in English and Arabic |
| Constants.AramcoDetailBilingual | constants.js:160-192 | the same for the Saudi Aramco details |
| Constants.FidicDetailBilingual | constants.js:193-225 | the same for the FIDIC details |
| Constants.PmiDetailBilingual | constants.js:226-250 | the same for the PMI details |
| Constants.GeneralDetailBilingual | constants.js:251-263 | the same for the general best-practice details |
| Constants.StandardDetailsWellFormed | constants.js:85-264 | every planning standard has an entry in the standard details, DCMA lists 14 criteria, and every entry is bilingual throughout |
| Constants.I18nTablesHaveSameKeys | constants.js:266-571 | the English and Arabic translation tables define the same keys |
| GeminiService.GetApiKey | services/geminiService.js:4-12 | `API_KEY` if set, else `VITE_API_KEY`; the chosen key is returned only if non-empty and not starting with `__VITE` or `YOUR_`, so a placeholder `API_KEY` is not replaced by `VITE_API_KEY` |
| GeminiService.Load | services/geminiService.js:14-18 | a client exists exactly when a key was found, and it holds that key |
| GeminiService.IsAnyModelConfigured | services/geminiService.js:15 | true exactly when the Gemini client exists |
| GeminiService.FindStandard | services/geminiService.js:33 | `find` returns none exactly when no standard has the id, else the first standard with it |
| GeminiService.StandardNameChoice | services/geminiService.js:33-34 | a known standard id yields that standard's English name; an unknown id yields the name of `general`, "General Best Practices" |
| GeminiService.FillTemplateSlots | services/geminiService.js:40-69 | the filled template holds the standard name, the language instruction and the standard name again, each at its slot |
| GeminiService.SystemInstructionCarries | services/geminiService.js:36-69 | the system instruction names the standard in both slots and carries the language instruction after the first |
| GeminiService.Base64Payload | services/geminiService.js:75-77 | an input without `base64,` is sent whole; otherwise what is sent is the segment between the first and the second `base64,` (or the end) |
| GeminiService.DataUrlPayload | services/geminiService.js:75-77 | for a data URL `data:<mime>;base64,<payload>` without commas, exactly the payload is sent |
| GeminiService.NoCommaNoMarker | services/geminiService.js:75 | a string without a comma contains no `base64,` marker |
| GeminiService.BuildParts | services/geminiService.js:71-96 | an image becomes an inline PNG part with the payload followed by the forensic-analysis prompt; text becomes a single part with the narrative prefix and the input |
| GeminiService.AnalyzeSchedule | services/geminiService.js:30-113 | no client fails with "Gemini client not initialized."; otherwise the request uses `gemini-2.5-flash`, the built parts, the system instruction and the JSON response type; a failed call fails with its message; an unparsable answer fails with "Failed to parse analysis results."; a parsed answer is the result |
| SupabaseClient.Supabase | services/supabaseClient.js:3-14 | a client exists exactly when the URL and anonymous key are both set and neither contains `__VITE`, and it holds those values |
| SupabaseClient.ClientValuesAreReal | services/supabaseClient.js:7-13 | a created client's URL and key are non-empty and free of the marker |
| SupabaseClient.MarkerAnywhereDisables | services/supabaseClient.js:9 | a URL with `__VITE` anywhere in it, not only at the start, disables sign-in |
| Placeholders.InstallEnvJs | env.js:4-29 | the runtime environment gets every `env.js` value and keeps every other variable it had |
| Placeholders.EnvJsDefaultsConfigureNothing | env.js:14-28 | with `env.js` unedited, whatever else the environment holds: a Gemini key exists exactly when `API_KEY` is set to a non-placeholder value, Supabase is not configured, and the settings dialog loads an empty key for a provider exactly when storage holds none and the build supplies no usable one |
| Placeholders.PlaceholderRulesDiffer | services/geminiService.js:8 | a `YOUR_` key is rejected by the Gemini rule but accepted by the settings rule; a value with `__VITE` inside is rejected only by the Supabase rule |
| SettingsModal.ProvidersMatchMapping | components/SettingsModal.js:4-16 | the provider list and the key mapping name the same four providers, in the same order, once each |
| SettingsModal.VariablesDistinct | components/SettingsModal.js:4-9 | distinct providers are stored under distinct variable names |
| SettingsModal.LoadKey | components/SettingsModal.js:30-54 | a stored value wins; then a runtime value, then a build value, each only if non-empty and not starting with `__VITE`; the result is empty exactly when none qualifies |
| SettingsModal.SaveAllAt | components/SettingsModal.js:62-70 | after saving, each provider's variable holds its non-empty key, or is removed when the key is empty, or is untouched when the provider has no key |
| SettingsModal.SaveAllElsewhere | components/SettingsModal.js:62-70 | saving changes no storage entry outside the four provider variables |
| SettingsModal.AfterSaveEffect | components/SettingsModal.js:61-71 | combines both: the saved provider's variable follows its key, and foreign entries stay |
| SettingsModal.SaveThenReopen | components/SettingsModal.js:22-71 | reopening after a save loads back every non-empty key that was saved |
| SettingsModal.Dialog.Open | components/SettingsModal.js:22-58 | opening loads every provider's key by the precedence rule and clears the status |
| SettingsModal.Dialog.SetKey | components/SettingsModal.js:111 | typing changes one provider's key and nothing else |
| SettingsModal.Dialog.Save | components/SettingsModal.js:61-75 | storage becomes the saved state for the current keys, the status reads "Saved! Reloading..." and a reload is scheduled |
| ReportDashboard.LocalizedContent | components/ReportDashboard.js:6-10 | a falsy item gives the empty string, a string is shown as is, an object gives its entry for the language, else its English entry, else the empty string |
| ReportDashboard.DisplayRisk | components/ReportDashboard.js:341 | the risk shown is the assessment's level if truthy, else the top-level risk level if truthy, else "Medium" |
| ReportDashboard.FilterActivities | components/ReportDashboard.js:161-165 | the filtered register is no longer than the register and every activity in it is admitted by the filter |
| ReportDashboard.FilterMembers | components/ReportDashboard.js:161-165 | an activity is shown exactly when the register lists it and the filter admits it |
| ReportDashboard.FilterCons | components/ReportDashboard.js:161-165 | the first activity is shown first when admitted, and the rest is filtered the same way |
| ReportDashboard.FilterAppend | components/ReportDashboard.js:161-165 | filtering distributes over concatenation, so relative order is kept |
| ReportDashboard.FilterCounts | components/ReportDashboard.js:161-165 | an admitted activity keeps its number of occurrences and a rejected one has none |
| ReportDashboard.FilterCriteria | components/ReportDashboard.js:162-163 | "Critical" keeps exactly the truthy-critical activities; "High Float" drops exactly those whose total float converts to a number below 44, so a missing float is kept |
| ReportDashboard.FilterOthersKeepAll | components/ReportDashboard.js:164 | every other filter, "All" among them, keeps the whole register |
| ReportDashboard.SetField | components/ReportDashboard.js:316-319 | a spread-and-set object holds the new field and every other field of the original object |
| ReportDashboard.MergeLanguage | components/ReportDashboard.js:307-314 | a localized field gets the text in the edited language and keeps the other languages of an object field |
| ReportDashboard.MergeLanguageShows | components/ReportDashboard.js:6-10 | after a non-empty edit, the field shows that text in the edited language |
| ReportDashboard.MergeLanguageKeepsOther | components/ReportDashboard.js:6-10 | editing one language leaves what another language shows unchanged |
| ReportDashboard.UpdateLocalizedField | components/ReportDashboard.js:305-320 | only the edited field changes, by the language merge |
| ReportDashboard.UpdateOverviewStat | components/ReportDashboard.js:323-331 | only the overview changes: it gets the new statistic and keeps the others |
| ReportDashboard.UpdateRiskDescription | components/ReportDashboard.js:395 | only the risk assessment changes: its description becomes the edited text alone, its other fields stay |
| ReportDashboard.RiskDescriptionDropsOther | components/ReportDashboard.js:395 | editing the risk description discards its text in the other language |
| ReportDashboard.CopyAndSet | components/ReportDashboard.js:79-80 | the copied list has the new item at the index and every other item unchanged |
| ReportDashboard.UpdateCheck | components/ReportDashboard.js:78-82 | only the edited check's field changes |
| ReportDashboard.EditListItem | components/ReportDashboard.js:220-232 | only the edited finding's title or description changes, by the language merge |
| ReportDashboard.EditRecommendation | components/ReportDashboard.js:459-466 | only the edited recommendation changes, by the language merge |
| ReportDashboard.Dashboard.constructor | components/ReportDashboard.js:284-287 | the dashboard starts on Overview, filter "All", not editing, with the given data |
| ReportDashboard.Dashboard.SyncData | components/ReportDashboard.js:290-292 | new data replaces the local copy and nothing else |
| ReportDashboard.Dashboard.ToggleEdit | components/ReportDashboard.js:296-302 | editing flips, and leaving edit mode hands the local data to the update callback if there is one |
| ReportDashboard.Dashboard.SetActivityFilter | components/ReportDashboard.js:506 | sets the filter only |
| ReportDashboard.Dashboard.SetActiveTab | components/ReportDashboard.js:585 | sets the tab only |
| ReportDashboard.Dashboard.EditLocalizedField | components/ReportDashboard.js:305-320 | the local data becomes the localized-field update |
| ReportDashboard.Dashboard.EditOverviewStat | components/ReportDashboard.js:323-331 | the local data becomes the overview update |
| ReportDashboard.Dashboard.EditRiskDescription | components/ReportDashboard.js:395 | the local data becomes the risk-description update |
| ReportDashboard.Dashboard.EditCheck | components/ReportDashboard.js:489-491 | the DCMA checks become the check update and the rest of the data stays |
| ReportDashboard.Dashboard.EditFinding | components/ReportDashboard.js:431-440 | the findings or non-compliance list becomes the item edit and the rest of the data stays |
| ReportDashboard.Dashboard.EditRecommendationAt | components/ReportDashboard.js:531-538 | the recommendations become the recommendation edit and the rest of the data stays |
| AuthModal.ValidateEmailMatchesPattern | components/AuthModal.js:42 | the email check accepts exactly the strings of the form local@domain.tld with every part non-empty and free of white space and `@` |
| AuthModal.ValidateEmailSound | components/AuthModal.js:42 | an accepted email has that form |
| AuthModal.ValidateEmailComplete | components/AuthModal.js:42 | every email of that form is accepted |
| AuthModal.WithField | components/AuthModal.js:37-40 | an input change sets the named form field and keeps the others |
| AuthModal.RegistrationChecks | components/AuthModal.js:102-106 | the first failing registration check, in the order full name, email, password length below 6 UTF-16 units, confirmation mismatch; none exactly when all pass |
| AuthModal.MessageKeysDefined | components/AuthModal.js:103-117 | every message key the dialog uses is defined in both translation tables |
| AuthModal.NextView | components/AuthModal.js:209-244 | the forgot link leads to reset, the switch link toggles login and register, back and the sign-up timer lead to login |
| AuthModal.RegisterOnlyFromLogin | components/AuthModal.js:239 | the register view is reached only from login through the switch link |
| AuthModal.FailureText | components/AuthModal.js:121 | a failure shows its message, or "Authentication failed" when the message is empty |
| AuthModal.Dialog.constructor | components/AuthModal.js:22-26 | the dialog starts on login with an empty form and no messages |
| AuthModal.Dialog.Open | components/AuthModal.js:28-35 | opening resets the view to login, empties the form and clears both messages |
| AuthModal.Dialog.InputChange | components/AuthModal.js:37-40 | the form takes the typed value and nothing else changes |
| AuthModal.Dialog.ChangeView | components/AuthModal.js:118-244 | the view follows the link or the sign-up timer |
| AuthModal.Dialog.Submit | components/AuthModal.js:79-125 | without Supabase only the not-configured error is set; otherwise the submission response is applied to the requests, messages, close request and login switch, and loading ends |
| AuthModal.SubmitResponse | components/AuthModal.js:86-124 | login sends the email and password, shows a failure, and closes the dialog only for a returned user; registration sends nothing and shows the first failing check, or sends email, password and full name and on success shows the registration message and schedules the switch to login; the error line is empty exactly when a request was sent and succeeded |
| AuthModal.Dialog.ForgotPassword | components/AuthModal.js:57-77 | without Supabase nothing happens; without an email the missing-email message is shown; otherwise a reset is requested and its outcome is shown |
| AuthModal.Dialog.GoogleLogin | components/AuthModal.js:44-55 | without Supabase the not-configured error is set; otherwise Google sign-in is requested and an error message is shown on failure |
| PMCAgent.GetRiskColor | components/PMCAgent.js:81-86 | red exactly for "high" and yellow exactly for "medium" in any letter case, and teal otherwise or when there is no level |
| PMCAgent.RiskColorIgnoresCase | components/PMCAgent.js:82 | an upper-cased level gets the same colour as the original |
| PMCAgent.PrintedStandardName | components/PMCAgent.js:222 | the printed header shows the English name of the standard whose id is selected, and "General" when no standard has that id; it is never empty |
| PMCAgent.AnalysisInput | components/PMCAgent.js:26 | the analysis sends the file content if it is a non-empty string, else the typed text |
| PMCAgent.TypedEditsAfterTextFileIgnored | components/PMCAgent.js:26 | with a non-empty file loaded, the typed text is not what an analysis sends |
| PMCAgent.Agent.CanAnalyze | components/PMCAgent.js:19 | an analysis may start exactly when the analyze button is enabled, that is when not loading and there is non-blank text or a loaded file |
| PMCAgent.Agent.constructor | components/PMCAgent.js:8-16 | the screen starts empty on the `general` standard |
| PMCAgent.Agent.BeginAnalyze | components/PMCAgent.js:18-27 | a blocked start changes nothing; a start sets loading, clears the result, and sends the file-or-text input, the image flag, the standard and the language |
| PMCAgent.Agent.FinishAnalyze | components/PMCAgent.js:27-34 | a successful analysis becomes the result, a failure shows the alert once, and loading ends either way |
| PMCAgent.Agent.ProcessFile | components/PMCAgent.js:45-66 | no file changes nothing; an `image/` file becomes the image input and clears the text; another file becomes the file input and fills the text |
| PMCAgent.Agent.TextChange | components/PMCAgent.js:177 | typing sets the text and drops an image, but keeps a loaded text file |
| PMCAgent.Agent.ClearImage | components/PMCAgent.js:156 | removing the image clears the preview and the image flag |
| PMCAgent.Agent.SelectStandard | components/PMCAgent.js:110 | choosing a standard selects its id |
| PMCAgent.Agent.CopyNote | components/PMCAgent.js:37-43 | only a truthy contractor note is copied and acknowledged |
| PMCAgent.Agent.CopiedTimerElapsed | components/PMCAgent.js:41 | the acknowledgement ends |
| App.RenderView | App.js:224-242 | the agent view shows the sign-in prompt exactly when nobody is signed in and Supabase is configured, else the agent; home, about, contact, terms and privacy each show their own screen; an unknown view shows Home |
| App.OnlyAgentIsGated | App.js:227-241 | every view except the agent renders the same whether or not someone is signed in, and none of them is the agent |
| App.SignOutGatesAgent | App.js:224-242 | for every view, signing out changes the screen only on the agent view with Supabase configured, where the sign-in prompt replaces the agent |
| App.ToggleTheme | App.js:214 | light becomes dark and anything else becomes light |
| App.ToggleLanguage | App.js:49 | English becomes Arabic and anything else becomes English |
| App.TogglesAreInvolutions | App.js:214 | toggling twice restores a light or dark theme and an English or Arabic language |
| App.InitialTheme | App.js:180-184 | the stored theme if non-empty, else dark exactly when the system prefers dark, else light |
| App.Direction | App.js:218 | the document is right-to-left exactly for Arabic |
| App.HeaderName | App.js:56 | the header shows the full name if truthy, else the email up to its first `@`, which contains no `@` |
| App.Shell.constructor | App.js:173-184 | the application starts on Home in Arabic with the initial theme, which is stored, and no dialog open |
| App.Shell.ApplyTheme | App.js:207-212 | the `dark` class follows the theme and the theme is stored |
| App.Shell.ApplyLanguage | App.js:216-219 | the document's language and direction follow the language |
| App.Shell.ToggleThemeClicked | App.js:214 | the theme toggles, and the class and the stored theme follow |
| App.Shell.ToggleLanguageClicked | App.js:49 | the language toggles, and the document's direction follows |
| App.Shell.Navigate | App.js:100 | navigation sets the view and, from the mobile menu, closes it |
| App.Shell.SetDialogs | App.js:253-286 | opens or closes the menu and the dialogs and changes nothing else |
| App.Shell.SessionChanged | App.js:189-195 | the signed-in user becomes the session's user, or nobody; on the agent view a signed-out session shows the sign-in prompt and a signed-in one the agent; every other view keeps its screen |
| StandardCriteriaModal.Pick | components/StandardCriteriaModal.js:10-11 | the Arabic text for Arabic, the English text otherwise |
| StandardCriteriaModal.DetailsFor | components/StandardCriteriaModal.js:9 | the standard's own details, or the general details for an unknown id |
| StandardCriteriaModal.ShowCriteria | components/StandardCriteriaModal.js:39-41 | criteria are listed in table order, each name and description in the chosen language |
| StandardCriteriaModal.Content | components/StandardCriteriaModal.js:6-62 | nothing is shown when closed or without a standard id; else the details' title, description and criteria in the chosen language, with "إغلاق" or "Close" |
| StandardCriteriaModal.UnknownStandardShowsGeneral | components/StandardCriteriaModal.js:9 | an unknown id shows exactly what `general` shows |
| StandardCriteriaModal.ShownTextsNonEmpty | components/StandardCriteriaModal.js:9-41 | every offered standard opens its own details, and every shown text is non-empty in either language |
| StandardCriteriaModal.DcmaShowsFourteenCriteria | components/StandardCriteriaModal.js:39 | the DCMA dialog lists fourteen criteria |
| Pricing.CurrentPricing | components/Pricing.js:8 | the pricing for the billing cycle if the plan has it, else the monthly pricing |
| Pricing.PlanCard | components/Pricing.js:6-46 | the card shows the plan name and current pricing in the page language, and the offer badge and original price exactly for the pro plan billed monthly |
| Pricing.MissingCycleShowsMonthly | components/Pricing.js:8 | a plan without pricing for the cycle shows its monthly price |
| Pricing.NoOfferWhenYearly | components/Pricing.js:7 | the yearly view never shows the offer |
| Pricing.ToggleCycle | components/Pricing.js:87 | monthly becomes yearly and anything else becomes monthly |
| Pricing.Page.constructor | components/Pricing.js:51-53 | the page starts on monthly billing with no dialog and no plan |
| Pricing.Page.ChoosePlan | components/Pricing.js:55-75 | the free plan changes nothing; another plan is selected as `<id>_<cycle>` with the cycle's pricing and opens the payment dialog |
| Pricing.Page.ToggleBillingCycle | components/Pricing.js:87 | the cycle toggles and nothing else changes |
| Pricing.Page.CloseModal | components/Pricing.js:111 | the payment dialog closes and the selection stays |
| Pricing.SelectedIdNamesPlanAndCycle | components/Pricing.js:64 | the selected id is the plan id, an underscore, and the cycle, which contains no underscore |

## Left out

- Network and SDK calls are not modelled: Gemini `generateContent`, Supabase `createClient` and its auth calls, and the session listener's source. Their outcomes are parameters: the `generate` function of `AnalyzeSchedule`, the `Outcome` of the sign-in methods, and the user given to `SessionChanged`.
- `JSON.parse` is the `parse` parameter. No JSON parser is modelled.
- Asynchrony is reduced to steps. An analysis is a start step and a finish step. Other interleavings of awaits with user events are not modelled, apart from what the `pending` field captures.
- The timers are separate steps or a scheduled flag:
  - the sign-up switch back to login;
  - the end of the copy acknowledgement;
  - the settings reload.
- Clipboard writes are a recorded sequence. The error alert is a counter.
- The file reader's output is the `content` given to `ProcessFile`. The data URL is not built.
- Markup, CSS classes other than the risk badge, drag highlighting, icons, printing, and the mobile-menu layout are left out.
- The Terms and Privacy links, and the Home, About, Contact, Terms, Privacy and AuthRequired components, are not part of this model. Only the routing to them is modelled.
- `localStorage` is always available here. The `typeof` guards and the `try`/`catch` around the build environment are not modelled.
- Js.Spread: the spread of a string or array value, whose index keys JavaScript copies, is modelled as the empty object.
- Js.ToNumber: only decimal digit strings are converted. Signs, fractions, exponents, hexadecimal and `Infinity` become NaN here. This matters only for a `totalFloat` given in such a string form.
- Property lookups inherited from `Object.prototype`, such as a standard id of `toString`, are not modelled.
- ReportDashboard.ListOf: a truthy list field that is not an array reads as the empty list. In JavaScript, `.map` and `.filter` throw on such a value (components/ReportDashboard.js:345, 489, 514), and the spread at lines 460 and 531 turns a string into its characters. The model assumes the report's list fields are arrays or absent.
- ReportDashboard.FilterActivities: a `null` entry in the activity register, on which JavaScript throws, is treated like any other value.
- PMCAgent.GetRiskColor: a non-string `riskLevel`, on which `toLowerCase` throws, is not modelled. The level is a string or absent.
- Text.ToLowerAscii: only ASCII letters are mapped. No other character lowercases to a letter of "high" or "medium", so the colour choice is unaffected.
- SettingsModal.Dialog.Save: storage is written in key-mapping order, not in the order of `Object.keys(keys)`. The writes go to distinct variables, so the final storage is the same.
- Pricing: `PRICING_PLANS` is imported but not defined in constants.js, so every plan is a parameter. The plan's features, button text and the payment dialog are left out.
