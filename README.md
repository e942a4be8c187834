# busy-cursor-rules, modelled in Dafny

`busy-cursor-rules` is a command-line tool that writes Cursor rule files
(`.mdc`) into a project. It inspects the project's `package.json` and a few
marker files (`detectProject`), recommends template ids, loads each
template's JSON configuration through a cache with a ten-minute time to live,
validates it, evaluates each rule's condition against the project, fills the
rule text's placeholders (`{{ NAME }}`, `${NAME}`, `%NAME%`) from a variable
map, and writes the results under the rules directory together with an
`ai.mdc` protocol file. A `config` command reads and writes the global
settings.

This project models that core and proves what it promises:

| file | module | models |
|---|---|---|
| `wrappers.dfy` | `Wrappers` | `Option` and `Result` |
| `json.dfy` | `Json` | JSON values, JavaScript truthiness, `String(v)`, `===`, object spread and key lookup |
| `text.dfy` | `Text` | global regular-expression replacement for the pattern shapes the source builds, `split`, `join`, `startsWith`, `path.basename` |
| `project.dfy` | `Project` | `ProjectInfo`, project types, package managers, the global configuration |
| `detector.dfy` | `Detector` | `detectProject` and its helpers, `getRecommendedTemplates` |
| `validation.dfy` | `Validation` | `validateTemplateConfig` |
| `cache.dfy` | `Cache` | `TemplateCache`, a class over two maps |
| `loader.dfy` | `Loader` | `loadTemplateConfig`, `loadRuleFile`, `getAllTemplateConfigs`, `clearCache`, `getCacheStats` |
| `condition.dfy` | `Condition` | `evaluateCondition`: the named conditions, the token substitution, the gate and a lexer, parser and evaluator for the text the gate lets through |
| `variables.dfy` | `Variables` | `mergeVariables`, the variable map and placeholder replacement of `processVariables` |
| `placeholders.dfy` | `Placeholders` | what the replacements of `processVariables` do to a whole template: its pieces, the three placeholder forms, the whole variable map |
| `process.dfy` | `Process` | `processTemplate`: the output path rule, per-rule outcomes and the summary |
| `generator.dfy` | `Generator` | `generateRules`, `generateRulesFromTemplateNew`, `addRule`, `validateRules`, `getRecommendedRules`, the dependency sections of `ai.mdc` |
| `config_command.dfy` | `ConfigCommand` | `configCommand` over the settings file of `getGlobalConfig`/`saveGlobalConfig`/`resetConfig` |
| `findings.dfy` | `Findings` | the discrepancy listed under "Findings" |

Conventions of the model:

- JSON objects are ordered key/value lists, as JavaScript keeps insertion order. `undefined` is `None`.
- The clock is a parameter.
  - `now` is the millisecond time used for cache stamps and expiry.
  - `elapsed` is the duration reported as `processTime`.
  - `Environment` holds `process.cwd()`, the ISO date text and the year.
- The template directories are a `Store` value: configuration text by template id, rule text by path, and `JSON.parse` as a function.
- The rules directory is a `Disk` object: a set of directories and a map from file path to content.
- In the generator, the template processor and the configuration loader are function parameters.
- Errors the source throws are `Err` values carrying the text `String(error)` would give.
- Operations that change state are methods with loops where the source loops. Each method is proved equal to a function, and the properties are proved about that function:
  - the cache's `get`/`set`;
  - the loaders;
  - `processVariables`;
  - `processTemplate`'s rule loop and `allSettled` loop;
  - the generator's write loops;
  - `detectProject`'s field-by-field assembly;
  - the config command.

## Model

| member | source | states |
|---|---|---|
| Json.Lookup | src/templates/loader.ts:384-407 | a key is found exactly when it is among the keys, and the value found belongs to that key |
| Json.Put | src/templates/loader.ts:568-585 | after assigning a key it holds the new value; every other key keeps its value |
| Json.SpreadLookup | src/templates/loader.ts:384-407 | after an object spread, a key takes its last value in the spread object if present there, else its earlier value |
| Json.NatToString | src/templates/loader.ts:403 | the decimal text of a number is nonempty and made of digits |
| Json.Entries | src/templates/loader.ts:156 | `Object.entries`: an object's own pairs, an array's items in order, and only characters for a string |
| Text.FindLeftmost | src/templates/loader.ts:412-421 | the match a global regular expression replaces first is the leftmost one; no match is reported only when there is none |
| Text.SplitInterleave | src/commands/config.ts:19 | putting the separators back between the pieces of a split gives the original text |
| Text.ReplaceIsJoin | src/templates/loader.ts:412-421 | replacing every match equals joining the split pieces with the replacement text |
| Text.SplitJoin | src/core/generator/index.ts:95-106 | splitting a `join` on a character that no piece contains gives back the pieces |
| Text.Basename | src/templates/loader.ts:490-496 | `path.basename` has no slash, and a name without a slash is its own basename |
| Detector.DetectProjectType | src/core/detector/index.ts:74-94 | react first (next when `next` is present too), then vue (nuxt when `nuxt` is present), then angular, then express/koa/fastify as node, else generic, each as an if-and-only-if |
| Detector.DetectLanguage | src/core/detector/index.ts:99-109 | `typescript` exactly when `typescript` or `@types/node` is a dependency, otherwise `javascript` |
| Detector.DetectFramework | src/core/detector/index.ts:131-144 | undefined exactly when none of the eight framework packages is present |
| Detector.FirstPresent | src/core/detector/index.ts:131-144 | reference definition: the display name of the first table entry whose package is present, and nothing earlier is present |
| Detector.DetectFrameworkFirstMatch | src/core/detector/index.ts:131-144 | the framework is the first of next, nuxt, react, vue, angular, express, koa, fastify present, as its display name |
| Detector.DetectPackageManager | src/core/detector/index.ts:114-126 | pnpm exactly when `pnpm-lock.yaml` exists, yarn exactly when only `yarn.lock` exists, otherwise npm |
| Detector.DepKeys | src/core/detector/index.ts:33-36 | the key list of a manifest section, empty when the section is absent or falsy |
| Detector.MergedLookup | src/core/detector/index.ts:28-31 | in the merged dependencies a devDependencies version overrides the dependencies one |
| Detector.TypeScriptFlag | src/core/detector/index.ts:48-51 | truthy exactly when `typescript` or `@types/node` is a dependency or `tsconfig.json` exists |
| Detector.TestsFlag | src/core/detector/index.ts:54-59 | truthy exactly when jest, vitest or mocha is a dependency or `test` or `__tests__` exists |
| Detector.Detect | src/core/detector/index.ts:8-69 | without a readable manifest the default record; otherwise type, language, framework, package manager, key lists and both flags from the merged dependencies and present paths |
| Detector.DetectProject | src/core/detector/index.ts:8-69 | the field-by-field assembly gives the `Detect` record with both flags stored as booleans (the corrected detection, see Findings) |
| Detector.DetectProjectAsWritten | src/core/detector/index.ts:8-69 | the field-by-field assembly as written, with the flags as the `||` chains leave them, gives `Detect` |
| Detector.LanguageImpliesFlag | src/core/detector/index.ts:48-51 | a TypeScript language always comes with a truthy TypeScript flag |
| Detector.TypeAndFramework | src/core/detector/index.ts:39-62 | no framework package means a generic type; a next type implies the Next.js framework |
| Detector.DetectFixed | src/core/detector/index.ts:48-59 | corrected detection: both flags are booleans with the same truthiness as the source's, and nothing else changes |
| Detector.TypeTemplates | src/core/detector/index.ts:150-186 | `typescript` is recommended for angular always and for react, vue, node, next and nuxt when the flag is set; no ids for other types |
| Detector.GetRecommendedTemplates | src/core/detector/index.ts:150-186 | `basic` first, the type's ids next, and `testing` last exactly when the project has tests |
| Validation.MissingFields | src/templates/loader.ts:103-112 | no errors exactly when every required field is truthy; each error is a `MISSING_REQUIRED_FIELD` for a falsy required field |
| Validation.RuleErrors | src/templates/loader.ts:141-152 | throws exactly when a rule is `null`; otherwise no errors exactly when every rule has a name and a file, all errors `INVALID_RULE` |
| Validation.VariableErrors | src/templates/loader.ts:154-174 | throws exactly when a definition is `null`; otherwise no errors exactly when every typed definition has a known type and every enum an array |
| Validation.MissingFieldsCount | src/templates/loader.ts:103-112 | there are exactly as many errors as falsy fields |
| Validation.MissingFieldsAt | src/templates/loader.ts:103-112 | the falsy field `fields[i]` has its `MISSING_REQUIRED_FIELD` error, with its name and message, at the position after the errors of the falsy fields before it: one error per falsy field, in field order |
| Validation.RuleErrorsCount | src/templates/loader.ts:141-152 | without a `null` rule, there are exactly as many errors as rules lacking a name or a file |
| Validation.RuleErrorsAt | src/templates/loader.ts:141-152 | the incomplete rule `i` has the `INVALID_RULE` error named `rules[i]` at the position after the errors of the incomplete rules before it: one error per incomplete rule, in index order |
| Validation.DefinitionErrorsMeaning | src/templates/loader.ts:155-172 | a definition that is not an object with a truthy `type` gives nothing; an unknown type gives `INVALID_VARIABLE_TYPE` on `variables.<key>.type`, an enum without an array `MISSING_ENUM_VALUES` on `variables.<key>.enum`, nothing else, and never both |
| Validation.VariableErrorsCount | src/templates/loader.ts:154-174 | without a `null` definition, the number of errors is the number the definitions give |
| Validation.VariableErrorsAt | src/templates/loader.ts:154-174 | the errors of definition `i` sit, in order, right after those of the definitions before it |
| Validation.DigitRun | src/templates/loader.ts:177 | the length of the leading run of digits, `\d+` |
| Validation.Validate | src/templates/loader.ts:98-190 | definition: the TypeError of a `null` configuration, rule or definition; otherwise the errors of the fields, category, compatibility, rules and variables checks in that order, and the version warnings; its meaning is in `ThrowsExactly` and `ValidMeansWellFormed` |
| Validation.ThrowsExactly | src/templates/loader.ts:98-190 | validation throws exactly when a `null` rule or variable definition is read |
| Validation.ValidMeansWellFormed | src/templates/loader.ts:185-189 | `isValid` exactly when `errors` is empty, exactly when fields, category, compatibility, rules and variables are all well formed; warnings play no part |
| Validation.SemverOfNumbers | src/templates/loader.ts:177 | a text starting with `major.minor.patch` passes the version test, whatever follows |
| Validation.TwoPartsNotSemver | src/templates/loader.ts:177 | `major.minor` alone fails the version test |
| Validation.CheckRequiredFields | src/templates/loader.ts:103-112 | the loop over the required fields gives `MissingFields` |
| Validation.CheckRules | src/templates/loader.ts:141-152 | the loop over the rules gives `RuleErrors` |
| Validation.CheckDefinitions | src/templates/loader.ts:154-174 | the loop over the variable definitions gives `VariableErrors` |
| Validation.ValidateTemplateConfig | src/templates/loader.ts:98-190 | the pushes of the validator give `Validate` |
| Cache.CacheGet | src/templates/loader.ts:43-53 | data is served exactly while `now` has not passed the expiry; an expired key is deleted; other keys are untouched |
| Cache.CachePut | src/templates/loader.ts:55-62 | the entry is stamped `now` and expires at `now + 600000`; other keys are untouched |
| Cache.PutThenGet | src/templates/loader.ts:41-62 | what is stored at `now` is served until `now + 600000` and not after |
| Cache.PutKeepsOthers | src/templates/loader.ts:55-62 | storing one key changes what no other key serves |
| Cache.MissIsFinal | src/templates/loader.ts:43-53 | a read that finds nothing leaves nothing for a later read |
| Cache.GetShrinks | src/templates/loader.ts:43-53 | reading never adds entries |
| Cache.TemplateCache.GetTemplate | src/templates/loader.ts:64-66 | the templates map becomes what `CacheGet` leaves; the files map is unchanged |
| Cache.TemplateCache.SetTemplate | src/templates/loader.ts:68-70 | the templates map becomes what `CachePut` gives; the files map is unchanged |
| Cache.TemplateCache.GetFile | src/templates/loader.ts:72-74 | the files map becomes what `CacheGet` leaves; the templates map is unchanged |
| Cache.TemplateCache.SetFile | src/templates/loader.ts:76-78 | the files map becomes what `CachePut` gives; the templates map is unchanged |
| Cache.TemplateCache.Clear | src/templates/loader.ts:80-83 | both maps are empty |
| Cache.TemplateCache.Size | src/templates/loader.ts:85-90 | the number of entries in each map |
| Cache.TemplateCache.constructor | src/templates/loader.ts:38-39 | both maps start empty |
| Loader.LoadConfig | src/templates/loader.ts:195-241 | definition: a live, truthy cached configuration, or the read, parse and validate steps and, with the cache on, the cache write; its meaning is in the lemmas below |
| Loader.LoadRule | src/templates/loader.ts:289-317 | definition: a live, non-empty cached text, or the store read (a `TemplateError` when the file is missing) and, with the cache on, the cache write; its meaning is in `RuleWithoutCache`, `RuleComesFromStoreOrCache` and `EmptyRuleReread` |
| Loader.AllConfigs | src/templates/loader.ts:246-284 | definition: `LoadConfig` on each listed file in order, keeping the truthy results and skipping the failures; its meaning is in `AllConfigsWithoutCache` and `AllConfigsBound` |
| Loader.Messages | src/templates/loader.ts:222 | one message per validation error, in order |
| Loader.ReadConfigValidated | src/templates/loader.ts:209-227 | a validated load read an existing file that parsed and passed validation |
| Loader.MissingConfig | src/templates/loader.ts:209-211 | a missing configuration file is a `TemplateError` naming the id |
| Loader.ConfigWithoutCache | src/templates/loader.ts:202-232 | with `useCache` false the cache is neither read nor written |
| Loader.CachedConfigServed | src/templates/loader.ts:202-205 | a live, truthy cached configuration is returned without reading the store |
| Loader.ConfigReloadWithinTtl | src/templates/loader.ts:202-232 | a configuration loaded at `now` is served from the cache until `now + 600000`, even after the store changes |
| Loader.LoadConfigKeepsOthers | src/templates/loader.ts:195-241 | loading one template changes no other template's cache entry |
| Loader.RuleWithoutCache | src/templates/loader.ts:289-317 | with `useCache` false a rule file is read from the store and the cache is untouched |
| Loader.RuleComesFromStoreOrCache | src/templates/loader.ts:294-311 | loaded rule text is the stored text or a live cached copy |
| Loader.EmptyRuleReread | src/templates/loader.ts:294-297 | an empty cached rule text is falsy, so it is read again |
| Loader.AllConfigsWithoutCache | src/templates/loader.ts:246-284 | with `useCache` false, listing all configurations reads exactly the loadable ones, in order, and leaves the cache alone |
| Loader.AllConfigsBound | src/templates/loader.ts:246-284 | at most one configuration per listed file, and every one returned is truthy |
| Loader.ReadTemplateConfig | src/templates/loader.ts:209-227 | the read, parse and validate steps give `ReadConfig` |
| Loader.LoadTemplateConfig | src/templates/loader.ts:195-241 | the result and the new templates map are `LoadConfig`'s; the files map is unchanged |
| Loader.LoadRuleFile | src/templates/loader.ts:289-317 | the result and the new files map are `LoadRule`'s; the templates map is unchanged |
| Loader.GetAllTemplateConfigs | src/templates/loader.ts:246-284 | the loop over the listing gives `AllConfigs`; the files map is unchanged |
| Loader.ClearCache | src/templates/loader.ts:596-598 | both maps are empty afterwards |
| Loader.GetCacheStats | src/templates/loader.ts:603-605 | the sizes of both maps |
| Condition.Tokenize | src/templates/loader.ts:363-365 | definition: JavaScript's lexer on the gate's text inside `new Function`, nothing for a character outside it; its meaning is in `TokenizePrint` and `TokenizeWhole` |
| Condition.Lex | src/templates/loader.ts:363-365 | definition: the lexer loop, `&&` and `||` before `&` and `|`, each token marked with whether a line terminator came before it |
| Condition.ParseLevel | src/templates/loader.ts:363-365 | a successful parse at a precedence level consumes at least one token (what makes the parser terminate); what it parses is in `ParsePrint` |
| Condition.ParseTail | src/templates/loader.ts:363-365 | the binary operators of a level, left-associative, never consuming more than it is given |
| Condition.ParseUnary | src/templates/loader.ts:363-365 | `!` prefixes, then a primary expression; a success consumes at least one token |
| Condition.ParsePrimary | src/templates/loader.ts:363-365 | `true`, `false`, an identifier other than the reserved `else`, or a parenthesised expression; a success consumes at least one token |
| Condition.ParseCalls | src/templates/loader.ts:363-365 | call suffixes `(...)` after a primary expression, never consuming more than it is given |
| Condition.ParseStatements | src/templates/loader.ts:363-365 | definition: further expression statements, each accepted only on a new line (automatic semicolon insertion) |
| Condition.ParseReturn | src/templates/loader.ts:363-365 | definition: `return` followed by nothing on its line returns `undefined`, `return e` returns `e`, anything else is a syntax error; its meaning is in `ParseWhole` |
| Condition.Eval | src/templates/loader.ts:363-365 | a value the gate's expressions evaluate to is a boolean or the number 0 or 1 |
| Condition.EvaluateExpression | src/templates/loader.ts:363-371 | text that fails the gate evaluates to false |
| Condition.EvaluateCondition | src/templates/loader.ts:324-372 | `hasTypeScript` and `hasTests` give the flags themselves, other named conditions a boolean, and substituted text failing the gate false |
| Condition.EvaluateConditionValue | src/templates/loader.ts:467-473 | a condition that is not a string evaluates to false |
| Condition.NamedConditions | src/templates/loader.ts:331-350 | each of the nine named conditions holds exactly when its project fact does; `isReact`, `isVue` and `isNext` also accept the framework |
| Condition.SubstitutePrint | src/templates/loader.ts:355-360 | with boolean flags, the five replacements print the formula with its facts filled in |
| Condition.ExpressionOfPrint | src/templates/loader.ts:363-365 | a printed ground formula passes the gate and evaluates to a value whose truthiness is the formula's meaning |
| Condition.PrintedConditionMeansFormula | src/templates/loader.ts:324-372 | a condition written as a formula over `hasTypeScript`, `hasTests`, `isReact`, `isVue`, `isNode` holds exactly when the formula is true of the project (type-only `isReact`/`isVue`), given boolean flags |
| Variables.DefinitionValue | src/templates/loader.ts:569-576 | reading a `null` definition throws; otherwise the typed definition's default or the raw value |
| Variables.MergeVariables | src/templates/loader.ts:564-589 | the loop gives `MergedVariables` |
| Variables.MergeDefinitions | src/templates/loader.ts:570-578 | the first loop gives `DefinitionsMerged`: each key bound to the user's value, else the definition's default or the definition itself, and the `TypeError` for a `null` definition |
| Variables.AddUserVariables | src/templates/loader.ts:581-585 | the second loop gives `UserAdded`: user keys the template does not define are appended in order |
| Variables.DefinitionsMergedError | src/templates/loader.ts:569-577 | merging throws exactly when a template definition is `null` |
| Variables.MergedVariablesMeaning | src/templates/loader.ts:564-589 | every key of either input is in the result; a template key has the user value unless it is null or undefined, else the fallback; user-only keys are copied |
| Variables.StringValues | src/templates/loader.ts:393-395 | each value becomes its `String(...)` text, keys and order kept |
| Variables.LateVariables | src/templates/loader.ts:399-406 | `HAS_TYPESCRIPT`, `HAS_TESTS`, `CURRENT_DATE`, `CURRENT_YEAR` and `PREFERRED_LANGUAGE` (`language` or `zh`) override template variables |
| Variables.TemplateOverProject | src/templates/loader.ts:384-398 | any other key takes the template variable's value when there is one, the project value otherwise; `FRAMEWORK` defaults to the empty text |
| Variables.VariableMap | src/templates/loader.ts:384-407 | definition: project values, then the template's variables, then the five late keys, all as text; its meaning is in `StringValues`, `LateVariables` and `TemplateOverProject` |
| Variables.ProcessVariables | src/templates/loader.ts:377-425 | the content after the loop is `ApplyVariables` over the variable map |
| Variables.ApplyVariable | src/templates/loader.ts:410-421 | definition: the mustache, dollar and percent replacements for one key, in that order; its meaning is in `Placeholders.ApplyVariableRender` |
| Variables.ApplyVariables | src/templates/loader.ts:410-422 | definition: `ApplyVariable` key after key in map order; its meaning is in `Placeholders.ApplyVariablesRender` |
| Variables.ReplaceVariables | src/templates/loader.ts:410-422 | the three replacements per key, key after key, give `ApplyVariables` |
| Variables.NoPlaceholderUnchanged | src/templates/loader.ts:410-422 | text with no `{` and no `%` is left as it is |
| Placeholders.DelimitedAt | src/templates/loader.ts:416-421 | `${KEY}` and `%KEY%` match at the start of a placeholder for a name exactly when the name is `KEY`, and then match the whole placeholder |
| Placeholders.MustacheAtBraces | src/templates/loader.ts:412 | `{{ KEY }}` (`\s*` on both sides) matches at the start of a `{{ NAME }}` placeholder, with any spaces, exactly when `NAME` is `KEY`, and then matches all of it |
| Placeholders.PieceAt | src/templates/loader.ts:410-421 | inside a template, a pattern for `KEY` matches only at the start of a placeholder named `KEY` in its own form, and there matches the whole placeholder; never inside plain text or another placeholder |
| Placeholders.ReplaceRender | src/templates/loader.ts:412-421 | one global `replace` over a template replaces exactly the placeholders of its form named `KEY` and leaves the rest of the text as it was |
| Placeholders.FillTemplate | src/templates/loader.ts:412-421 | a replacement whose value is plain text leaves a template, so the next replacement still sees placeholders whole |
| Placeholders.ApplyVariableRender | src/templates/loader.ts:410-421 | the three replacements for one key turn every `{{ KEY }}`, `${KEY}` and `%KEY%` of a template into the value and change nothing else |
| Placeholders.ResolveTemplate | src/templates/loader.ts:410-422 | filling bound placeholders with plain values keeps a template a template |
| Placeholders.ApplyVariablesRender | src/templates/loader.ts:410-422 | applying the whole map turns every placeholder whose name the map binds, in all three forms and wherever it stands, into the value of that name's first binding, and leaves all other text unchanged |
| Placeholders.UnboundUnchanged | src/templates/loader.ts:410-422 | a template none of whose placeholder names the map binds comes out unchanged |
| Placeholders.PlaceholderAround | src/templates/loader.ts:410-422 | a placeholder between two plain texts becomes its name's value when the map binds the name, and stays as written otherwise; the texts around it are kept |
| Placeholders.MustachePlaceholder | src/templates/loader.ts:412-413 | `{{ KEY }}`, with any spaces inside the braces, in context becomes the value bound to `KEY`, or stays when `KEY` is unbound |
| Placeholders.DollarPlaceholder | src/templates/loader.ts:416-417 | `${KEY}` in context becomes the value bound to `KEY`, or stays when `KEY` is unbound |
| Placeholders.PercentPlaceholder | src/templates/loader.ts:420-421 | `%KEY%` in context becomes the value bound to `KEY`, or stays when `KEY` is unbound, when what follows does not start with a name character |
| Process.OutputPath | src/templates/loader.ts:486-498 | definition: a `basic/` file keeps its path; otherwise `category/basename`, or `category/id/basename` when the two differ; its meaning is in the three lemmas below |
| Process.OutputPathKeepsName | src/templates/loader.ts:486-498 | the output file keeps the rule file's basename and, unless under `basic/`, lies under the category directory |
| Process.OutputPathOfCategoryTemplate | src/templates/loader.ts:487-493 | for any configuration whose `category` and `id` are the same string, a file outside `basic/` is written to `category/basename` |
| Process.OutputPathUnderTemplate | src/templates/loader.ts:486-498 | for any configuration with string `category` and `id`: a `basic/` file keeps its path, and otherwise, when the two differ, the file goes to `category/id/basename` |
| Process.RuleOutcomeOf | src/templates/loader.ts:467-511 | a `null` rule is rejected, a rule with a truthy false condition skipped (a warning only), each exactly; a generated file has the mapped path and is `utf-8`; skips and rejections leave the cache |
| Process.RuleOutcomeContent | src/templates/loader.ts:476-507 | a rule that is neither `null` nor skipped is generated exactly when its `file` is a string that `loadRuleFile` reads, with that text after `processVariables` as its content; it fails exactly when the file is not a string or cannot be read, with an error naming the rule; the file cache is what loading left |
| Process.NoCacheGeneratedContent | src/templates/loader.ts:476-507 | without the cache, a generated rule's content is its stored rule text after `processVariables`, whatever the other rules are |
| Process.GeneratedTemplate | src/templates/loader.ts:476-507 | a reached rule whose stored text is a placeholder template is generated, with every placeholder the map binds filled in and all other text kept |
| Process.EmptyConditionIncluded | src/templates/loader.ts:470 | a rule with an empty or absent condition is never skipped |
| Process.RuleOutcomes | src/templates/loader.ts:467 | one outcome per rule |
| Process.OutcomeKinds | src/templates/loader.ts:467-511 | the `i`-th outcome is a rejection exactly when rule `i` is `null`, a skip exactly when its condition is false |
| Process.RulesIndependent | src/templates/loader.ts:467-511 | without the cache each rule's outcome depends on that rule alone, whatever the others do |
| Process.NoCacheRuleOutcomes | src/templates/loader.ts:476 | without the cache the rules leave the file cache as it was |
| Process.OutcomesCounted | src/templates/loader.ts:513-520 | every rule contributes exactly one file, warning or error; there are no errors exactly when no rule failed |
| Process.Aggregate | src/templates/loader.ts:522-539 | success exactly when no errors, `filesGenerated` is the file count, a success scores 100, the files are the generated ones in rule order |
| Process.FailureResult | src/templates/loader.ts:540-558 | the outer catch: no success, no files, score 0 |
| Process.ProcessTemplateOf | src/templates/loader.ts:432-559 | every result is summarized consistently (success iff no errors, file count, score) and the templates cache is what loading left |
| Process.PreferredLanguageIsZh | src/templates/loader.ts:456 | rules are processed with an empty global configuration, so `PREFERRED_LANGUAGE` is `zh` |
| Process.LoadFailureResult | src/templates/loader.ts:540-558 | a configuration that fails to load gives no success, no files, score 0, version `未知` and one error naming the cause |
| Process.RulesAccounted | src/templates/loader.ts:467-539 | the files, warnings and errors add up to the rule count; success exactly when every rule was skipped or generated; a success had no `null` rule |
| Process.ProcessRule | src/templates/loader.ts:467-511 | one rule's async function gives `RuleOutcomeOf` on the cache |
| Process.RunRules | src/templates/loader.ts:467-511 | the rule loop gives `RuleOutcomes`, with the warnings and caught errors in order |
| Process.Settle | src/templates/loader.ts:513-520 | fulfilled files in order, rejections appended to the errors |
| Process.ProcessRules | src/templates/loader.ts:467-539 | the rule loop and the summary give `Aggregate` of `RuleOutcomes` |
| Process.ProcessTemplate | src/templates/loader.ts:432-559 | the result and both cache maps are `ProcessTemplateOf`'s |
| Generator.Disk.constructor | src/core/generator/index.ts:22-25 | the disk holds the given directories and files |
| Generator.Disk.EnsureDir | src/core/generator/index.ts:22-25 | adds one directory and changes no file |
| Generator.Disk.WriteFile | src/core/generator/index.ts:69-72 | sets one file's content and changes no directory |
| Generator.InjectedVariables | src/core/generator/index.ts:54-62 | definition: `PACKAGE_MANAGER`, `TARGET_VERSION`, `RUNTIME` and, when set, `CUSTOM_PATH`; its meaning is in `InjectedVariablesMeaning` |
| Generator.InjectedVariablesMeaning | src/core/generator/index.ts:54-62 | `TARGET_VERSION` is ES2022 exactly when the TypeScript flag is truthy, `RUNTIME` Node.js exactly for node, `CUSTOM_PATH` present exactly when `customTemplatePath` is truthy |
| Generator.Written | src/core/generator/index.ts:69-72 | each generated file is written at `rulesDir/path`, the last write to a path wins, other files are kept |
| Generator.FromTemplate | src/core/generator/index.ts:47-73 | throws exactly when processing did not succeed, with the errors joined in the message, before writing; otherwise the files written |
| Generator.GenerateFromTemplate | src/core/generator/index.ts:47-73 | the write loop leaves the disk as `FromTemplate` says, or unchanged on a throw |
| Generator.Generation | src/core/generator/index.ts:27-36 | definition: the template loop, each id tried in order and pushed to the successful or failed list; its meaning is in `GenerationSorts` |
| Generator.Sorted | src/core/generator/index.ts:28-36 | the listed ids all come from the request and share the outcome |
| Generator.SortedPartition | src/core/generator/index.ts:28-36 | every requested id lands in exactly one of the two lists |
| Generator.GenerationSorts | src/core/generator/index.ts:28-36 | the successful and failed lists are the requested ids of each outcome in request order, together a permutation of the request; a failure never stops later ids |
| Generator.DependencyLines | src/core/generator/index.ts:95-106 | an empty list gives the placeholder; otherwise line `i` is `- ` and dependency `i` |
| Generator.ValidateRules | src/core/generator/index.ts:219-240 | true exactly when `basic`, `module`, `workflow` and `ai.mdc` all exist |
| Generator.GenerateRules | src/core/generator/index.ts:13-42 | creates the four directories, sorts the ids, writes the successful templates' files, then `ai.mdc` with its dependency sections, after which the layout validates |
| Generator.Collision | src/core/generator/index.ts:203-211 | definition: the rules' paths checked in order, stopping at the first that exists; its meaning is in `CollisionFree` and `CollisionNamesFirst` |
| Generator.RulesIterated | src/core/generator/index.ts:203 | what `for ... of` iterates: an array's items or a string's characters, and nothing exactly when the value is neither |
| Generator.PreCheck | src/core/generator/index.ts:202-212 | definition: `config.rules` read (a TypeError when the configuration is `null` or the rules are not iterable), then `Collision` over what `for ... of` yields |
| Generator.StringRules | src/core/generator/index.ts:203-205 | a string `rules` passes the check when empty, and otherwise fails with the `path` TypeError, since its first character has no `file` |
| Generator.CollisionFree | src/core/generator/index.ts:203-211 | the pre-check passes exactly when every rule's `category/basename` path can be built and does not exist |
| Generator.CollisionNamesFirst | src/core/generator/index.ts:203-211 | the error names the first existing path in rule order |
| Generator.AddRuleOf | src/core/generator/index.ts:195-214 | definition: the loaded configuration, the pre-check unless `force`, then generation; its meaning is in `AddRuleChecksFirst` |
| Generator.AddRuleChecksFirst | src/core/generator/index.ts:195-214 | without `force` a failed pre-check writes nothing; with `force` no check is made |
| Generator.CheckRules | src/core/generator/index.ts:203-211 | the pre-check loop gives `Collision` |
| Generator.AddRule | src/core/generator/index.ts:195-214 | the disk after `addRule` is what `AddRuleOf` gives, or unchanged when it throws |
| Generator.GetRecommendedRules | src/core/generator/index.ts:245-276 | the project's id for react, vue and node, then `typescript` exactly when the flag is truthy, `testing` exactly when there are tests, and `workflow` always, last |
| ConfigCommand.Effective | src/utils/config.ts:21-32 | the saved settings over the defaults object: every default and saved key, saved values winning; with no file, the defaults object itself |
| ConfigCommand.SettingsFile.constructor | src/utils/config.ts:6-16 | the file holds the given settings and the defaults object holds the declared defaults |
| ConfigCommand.SettingsFile.GetGlobalConfig | src/utils/config.ts:21-32 | the effective settings |
| ConfigCommand.SettingsFile.SaveGlobalConfig | src/utils/config.ts:37-43 | the file holds the current settings with the new ones spread over them; the defaults object is untouched |
| ConfigCommand.SettingsFile.ResetConfig | src/utils/config.ts:48-50 | the file holds the defaults object as it now is |
| ConfigCommand.Coerce | src/commands/config.ts:26-27 | `true` and `false` become booleans, every other text stays a string |
| ConfigCommand.CoercePrintsBack | src/commands/config.ts:26-29 | the stored value prints back as the typed text |
| ConfigCommand.ParseAssignment | src/commands/config.ts:19-23 | definition: the first two pieces of `split('=')`, rejected when the key is empty or there is no value; its meaning is in the three lemmas below |
| ConfigCommand.ParseAssignmentOf | src/commands/config.ts:19-23 | `key=value` gives the pair (`key=` gives the empty value) |
| ConfigCommand.ParseAssignmentDropsRest | src/commands/config.ts:19-23 | `key=value=rest` gives the pair `key`, `value`: the rest is dropped |
| ConfigCommand.ParseAssignmentRejects | src/commands/config.ts:19-23 | text without `=`, or with an empty key, is a format error |
| ConfigCommand.Command | src/commands/config.ts:8-61 | definition: reset, set, get, list or help, in that order of precedence, with the new settings; its meaning is in the lemmas below |
| ConfigCommand.ResetFirst | src/commands/config.ts:12-16 | reset wins over every other option and saves the defaults object |
| ConfigCommand.ResetSavesDefaults | src/utils/config.ts:10-16 | in a process that has just started, a reset saves the declared defaults |
| ConfigCommand.SetThenGet | src/commands/config.ts:18-38 | set wins over get, changes exactly one key to the coerced value, and a later get prints the typed text |
| ConfigCommand.SetWritesDefaults | src/commands/config.ts:24-28 | with no settings file the set also assigns into the defaults object (returned by src/utils/config.ts:31), so a later reset in the same process saves the new value; with a file the defaults object is untouched |
| ConfigCommand.FormatErrorSavesNothing | src/commands/config.ts:20-23 | a malformed `--set` saves nothing |
| ConfigCommand.GetMissing | src/commands/config.ts:33-38 | `--get` of a missing key prints `undefined` and changes nothing |
| ConfigCommand.RunConfigCommand | src/commands/config.ts:8-61 | the outcome, the saved settings and the defaults object are `Command`'s |
| Findings.CompoundConditionDroppedAsWritten | src/core/detector/index.ts:48-51 | a React project with TypeScript `^5.0.0` satisfies `(hasTypeScript && isReact)` yet the rule's condition evaluates to false |
| Findings.CompoundConditionKeptWhenFixed | src/core/detector/index.ts:48-59 | with the flags stored as booleans every printed formula condition holds exactly when it is true of the project |

## Left out

- File system and glob I/O are left out. Directories, configuration files and rule files are values (`Store`, `Disk`), and a listing is a parameter. Read errors of `loadRuleFile`, a failing `glob` and `writeFile` creating parent directories are not modelled.
- The clock, `process.cwd()` and the date are parameters. One `now` is used for a whole `processTemplate` call, so the variable map is computed once for all rules, where the source calls `new Date()` per rule.
- `Promise.allSettled` is modelled as a sequential loop over the rules, in order. No interleaving of the async functions is captured, so the order in which warnings and caught errors are pushed is that of the rules. `Process.RulesIndependent` states the independence the parallel code relies on.
- Only the pattern shapes the source builds are modelled as regular expressions. Variable names are taken literally, with no regular-expression meta-characters in keys, and `$` patterns in replacement values are not interpreted.
- Placeholders.ApplyVariablesRender: the closed form is proved for templates whose placeholder names, and variable maps whose keys, are ASCII letters, digits and `_` (so no key holds a regular-expression meta-character), whose plain text and variable values hold no `{`, `$` or `%`, and in which every `%NAME%` is followed by the end of the text or by a character that cannot be part of a name. Outside these conditions a value can form a new placeholder for a later key, and two percent placeholders can share a `%` (`%A%B%`), so the outcome depends on the key order. `Variables.ApplyVariables` still computes those texts, but no closed form is stated for them.
- Placeholders.PlaceholderAround: stated under the same conditions as `ApplyVariablesRender`.
- Placeholders.MustachePlaceholder: stated under the same conditions as `ApplyVariablesRender`.
- Placeholders.DollarPlaceholder: stated under the same conditions as `ApplyVariablesRender`.
- Placeholders.PercentPlaceholder: stated under the same conditions as `ApplyVariablesRender`, and only when what follows `%KEY%` does not start with a name character.
- Placeholders.UnboundUnchanged: stated under the same conditions as `ApplyVariablesRender`.
- Variables.NoPlaceholderUnchanged: stated for any variable map and any text holding no `{` and no `%`; the whole-template form is `Placeholders.ApplyVariablesRender`.
- TypeError texts are approximations of V8's. `Process.PathTypeError` omits the "Received ..." suffix.
- Generator.AddRuleOf: a `rules` value that is neither an array nor a string is not iterable and gives one TypeError text, whatever its type; V8's exact wording per type is not modelled.
- `CompatibilityError` is never thrown inside `processTemplate`, so its rethrow is not modelled.
- In the condition evaluator, a line terminator inside a condition and the automatic-semicolon-insertion cases it leads to are modelled only as far as the token stream records them. Since `new Function` text is only ever the gate's characters, evaluation beyond that grammar yields false.
- ConfigCommand.Effective: `customTemplatePath: undefined` is not a key of the defaults, so the listing shows no `customTemplatePath` line.
- A settings file that exists but cannot be read is left out of `getGlobalConfig`; it falls back to the defaults in the source.
- The `config` command's printing (chalk colours, the help text) is left out. The outcome carries what is printed. The message of an unexpected error and `process.exit(1)` are left out.
- `generateAIProtocol`'s prose and timestamp are left out. The model keeps its two dependency sections, written to `ai.mdc`.
- `path.join` is concatenation with `/`; normalisation of `.` and `..` is left out.
- JSON numbers are integers; floating point is left out.
- JSON objects are assumed to have distinct keys, and JavaScript's reordering of integer-like keys is left out.
- The CLI (`cli.ts`), the `init`, `add` and `list` commands, `templates/adapter.ts` and `templates/index.ts` are not part of this model; they are prompts, printing and thin wrappers over the loader.

## Findings

| source | as written | input that shows it | evidently intended | confidence | as-written member | corrected member |
|---|---|---|---|---|---|---|
| src/core/detector/index.ts:48-51 | `hasTypeScript` stores `deps.typescript \|\| ...`, the version string; the condition path of `evaluateCondition` (src/templates/loader.ts:355-365) substitutes `String(hasTypeScript)`, and `^5.0.0` fails the gate | a `package.json` with `react` and `typescript: "^5.0.0"` and a rule with condition `(hasTypeScript && isReact)`: the rule is skipped | the flags are booleans (`ProjectInfo.hasTypeScript: boolean`), so the rule is kept; `Detector.DetectProject` stores them so | not executed | Findings.CompoundConditionDroppedAsWritten | Findings.CompoundConditionKeptWhenFixed |
