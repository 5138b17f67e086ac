# Resume builder: a verified model of its section builders

The resume builder (`build.py`) turns a recipe and a data store into LaTeX
files. The data store is `data.json`, holding summaries, skills, projects,
jobs and education records. The recipe selects entries from `recipes.json`.
Each section builder walks ordered key/value maps and expands them into
markup tokens. The entry-point document imports the sections the recipe
activates. This project models those string builders as pure Dafny
functions and proves what their output is.

Modules, one per component:

- `Results` (results.dfy): `Result`/`Option`, and the in-order lookup of
  names that fails at the first missing key. A missing key is the
  `KeyError` that aborts a run.
- `Text` (text.dfy): concatenation and separator joins.
- `Tokens` (tokens.dfy): the token constants of build.py:18-27, after
  Python's escapes and `str.format` are resolved.
- `Resume` (resume.dfy): the data store, the recipe, the injected templates,
  the top-level `exclude` filter, and the lookup-render-concatenate loop
  that the projects, experience and education builders share.
- `Skills`, `Projects`, `Experience`, `Education` (one file each): the four
  list-section builders.
- `Assembler` (assembler.dfy): the summary, the `SECTIONS` table, the
  entry-point import list, and the text of every file of a run.

Modelling choices:

- Points maps are ordered lists of key/value pairs, because Python dicts
  keep insertion order. A points value is `Leaf(text)` or
  `Group(children)`, and a group's children are texts.
- Collections that are only subscripted are `map`s.
- The template files (`PROJECT_TEMPL`, `EXP_TEMPL`, `EDU_TEMPL`,
  `SECTION_TEMPL`, `RESUME_TEMPL`) are functions of their keyword arguments,
  held in a `Templates` value. Python's `str` of a nested dict is one more
  such function, `groupText`.
- Each source loop is modelled by a function that follows it index by
  index, and each is characterised for all inputs. Most are proved equal to
  an independent reference shape: a join, a filter, a concatenation of
  per-item pieces, or a parsed import list. Three are pinned down instead by
  lemmas that split them over a concatenation of their input and fix their
  one-element case: the custom-notation group loop of the education builder,
  the custom-notation points loop, and the entry loop the three entry
  sections share.

Notes on the code:

- The projects and experience builders filter the top-level point keys
  through the recipe's `exclude` list and nothing else. Project points are
  bullet texts. An experience group is rendered one level deep, with its
  child keys unused.
- Whether a kept project point gets a newline depends on its index in the
  full points map.
- The experience title is always the job's own `name` field.
- A skill line reads `\textbf{<category>}: <texts>`.
- All five section files are built whether or not their section is active.
  So a recipe whose summary name is empty still looks up
  `DATA["summaries"][""]` (`InactiveSummaryStillLooksUp`).
- The summary builder returns the stored text as it is, whatever it holds.

## Model

| member | source | states |
|---|---|---|
| Results.LookupAll | build.py:47 | Lookups succeed iff every key is present; the values come back in key order; on failure the error names the collection and the first absent key |
| Resume.Kept | build.py:76-77 | The exclude filter keeps exactly the pairs whose key is not excluded, and no more pairs than it was given; order and multiplicity are fixed by `Resume.KeptAppend` and `Resume.KeptSingle` |
| Resume.KeptAppend | build.py:76-77 | Filtering keeps the data's order: the kept pairs of `a + b` are those of `a` followed by those of `b` |
| Resume.KeptSingle | build.py:77 | One pair is kept, exactly once, iff its key is not in the exclude list |
| Resume.BuildEntries | build.py:64-65 | An entry section succeeds iff every recipe name is in the data store; otherwise it fails at the first unknown name, in recipe order |
| Resume.BuildEntriesAppend | build.py:64-91 | Entries are concatenated in recipe order: the output for `a + b` is that of `a` then that of `b`, and an error in `a` takes precedence |
| Resume.BuildEntriesSingle | build.py:85-91 | A single known entry renders as exactly one template instance |
| Skills.ResolveGroups | build.py:43-47 | Skill keys resolve iff all are known; the result holds each group's display texts in recipe order; the error equals that of looking up all keys in order |
| Skills.ContentFrom | build.py:43-47 | The inner skills loop from position `j` on; `Skills.ContentFromIsJoin` proves it is ", " before each text after the first, that is the texts joined by ", " |
| Skills.LinesFrom | build.py:40-56 | The outer skills loop from group `i` on; `Skills.LinesFromIsJoin` proves it is the rendered lines joined by the line break, with none after the last |
| Skills.BuildSkills | build.py:38-58 | The skills body equals the reference shape: one bold line per group, texts joined by ", ", lines joined by the line break. It fails iff some skill key is unknown, at the first unknown key |
| Skills.GroupContentIsJoin | build.py:43-47 | A group's content is its texts joined by exactly ", ", in order, with no leading or trailing comma, and empty for an empty group |
| Skills.SkillsBodyIsJoin | build.py:40-58 | Every group but the last ends with a blank, `\\` and a newline; the last has no separator; no groups give "" |
| Skills.TwoGroupExample | build.py:38-58 | Languages (Alpha, Beta) then Tools (Gamma) render as two bold lines separated by the line break |
| Projects.BuildProjects | build.py:61-93 | The projects body succeeds iff every named project exists, failing at the first unknown name |
| Projects.TechBullet | build.py:68-74 | The Technologies bullet is present, non-empty, exactly when `tech` is non-empty (Python truthiness) |
| Projects.PointsFrom | build.py:76-83 | The points loop from an index of the full map on; `Projects.PointsFromShape` proves it equals the kept bullets joined by a newline and 8 blanks, then 8 blanks, with a newline after the last kept bullet iff the map's final point is excluded |
| Projects.ProjectItems | build.py:66-83 | The body of one project; `Projects.ProjectItemsShape` gives its shape |
| Projects.ProjectItemsShape | build.py:66-83 | The project body is the Technologies bullet when tech is non-empty, then one bullet per kept point in data order, joined by a newline and 8 blanks and followed by 8 blanks; if the map's final point is excluded, the last kept bullet keeps its newline |
| Projects.ProjectItemsNoExclusion | build.py:76-83 | With nothing excluded, the bullets are newline-and-indent separated and the body ends in the indent alone |
| Projects.TrailingNewlineWhenLastExcluded | build.py:80-83 | If the final point is excluded and some point is kept, the body still ends in a newline and 8 blanks |
| Projects.ExcludedTextIrrelevant | build.py:76-78 | Replacing a project's points map by one with the same kept pairs and the same final-point exclusion leaves the body unchanged: the text of an excluded point never matters |
| Projects.BuildProjectsAppend | build.py:64-91 | Project entries appear in recipe order, each independent of the others |
| Projects.BuildProjectsSingle | build.py:64-91 | One known project yields exactly its template instance |
| Experience.BuildExperience | build.py:96-117 | The experience body succeeds iff every named job exists, failing at the first unknown name |
| Experience.JobItems | build.py:102-108 | The points loop of one job; `Experience.JobItemsAreKeptPoints` gives its shape |
| Experience.JobItemsAreKeptPoints | build.py:102-108 | A job's body is the renderings of the kept point values concatenated in the job's point order, one per kept point |
| Experience.JobPoint | build.py:104-108 | One kept point: a leaf is a plain bullet then `\newline`; a group is its indented bullets (`Experience.GroupBulletsAreIndentedBullets`) |
| Experience.GroupBullets | build.py:105-106 | The group loop; `Experience.GroupBulletsAreIndentedBullets` gives its shape |
| Experience.GroupBulletsAreIndentedBullets | build.py:105-106 | A group is one indented bullet per child value, in child order, concatenated; child keys play no part |
| Experience.GroupBulletsAppend | build.py:105-106 | The children of a group render independently and in order: the body of `a + b` is that of `a` then that of `b` |
| Experience.GroupBulletsSingle | build.py:106 | A one-child group is exactly one indented bullet of the child's value, whatever its key |
| Experience.JobItemsAppend | build.py:102-108 | Job points render independently and in order |
| Experience.JobItemsFilterFirst | build.py:102-103 | Excluding is exactly filtering the top-level points first and then rendering with no exclusion |
| Experience.ChildKeysNeverFiltered | build.py:103-106 | Only top-level keys are checked: exclusion lists that agree on them give the same body, whatever child keys they name |
| Experience.GroupBulletsLength | build.py:104-106 | The length of a group's body is the children's texts plus one bullet's markup per child |
| Education.BuildEducation | build.py:120-149 | The education body succeeds iff every named record exists, failing at the first unknown name |
| Education.EducationItems | build.py:125-139 | The points loop of one record; `Education.StandardOnePerPoint` gives its standard-notation shape, and `Education.EducationItemsAppend` with `Education.EducationItemsSingle` and the point lemmas gives the custom one |
| Education.EduPoint | build.py:127-139 | One top-level point; `Education.MainLeafAddsIntro` and `Education.GroupLinesSingle` state what it renders in custom notation |
| Education.GroupLines | build.py:135-139 | The custom group loop; `Education.GroupLinesAppend` and `Education.GroupLinesSingle` pin it down |
| Education.GroupLinesAppend | build.py:135-139 | The children of a group render independently and in order: the lines of `a + b` are those of `a` then those of `b` |
| Education.GroupLinesSingle | build.py:136-139 | Each child is one line: the 1mm bullet when keyed "main", the 5mm bullet otherwise |
| Education.StandardOnePerPoint | build.py:126-128 | In "standard" notation the body is exactly one plain bullet per top-level point, in order, groups flattened to their text |
| Education.StandardIgnoresKeys | build.py:126-128 | In "standard" notation two records with the same values in the same order render identically, whatever their keys |
| Education.CustomOnlyMainKeyMatters | build.py:129-139 | In custom notation a top-level key matters only by being "main" or not |
| Education.MainLeafAddsIntro | build.py:129-133 | In custom notation a leaf not keyed "main" is exactly the 1mm bullet of its text; a leaf keyed "main" is the introductory line of its text and then that bullet |
| Education.GroupChildIndent | build.py:134-139 | Inside a group, a child keyed "main" gets the bullet of a plain leaf; any other child gets the 5mm indent |
| Education.EducationItemsAppend | build.py:125-139 | Education points render independently and in order |
| Education.EducationItemsSingle | build.py:126-139 | A record with one point renders exactly that point's text, in either notation |
| Assembler.BuildSummary | build.py:34-35 | The summary body is the named summary verbatim; an unknown name fails with that name |
| Assembler.ActiveRows | build.py:176-177 | Exactly the rows of `SECTIONS` whose recipe entry is truthy, in increasing order |
| Assembler.ImportsFrom | build.py:176-178 | The import loop from a table row on; `Assembler.ImportListIsActiveSections` proves what it parses back to |
| Assembler.ImportListIsActiveSections | build.py:176-178 | Parsed back, the import lines from any table row on (the whole entry point from row 0) name exactly the active sections, each once, in the fixed order summary, skills, projects, experience, education |
| Assembler.ParseImportLines | build.py:18 | Import lines of dot-free names parse back to exactly those names |
| Assembler.SectionFiles | build.py:182-189 | Each row given gets one file, in row order, named by its key and formatted with its title and type. The loop fails iff some row's builder fails, and then with the first failing row's error |
| Assembler.PartContent | build.py:152-158 | The builder of each table row, as `SECTIONS` pairs them: summary, skills, projects, experience, education |
| Assembler.Build | build.py:173-189 | A run succeeds iff all five builders succeed. Then it yields the entry point around the import list and the five section files in table order, each named by its key and formatted with its row's title, type and content. Otherwise it fails with the error of the first failing row |
| Assembler.InactiveSummaryStillLooksUp | build.py:182-183 | An empty summary name is inactive, yet the run fails if the data store has no summary under "" |

## Left out

- Loading `data.json`, `recipes.json` and the template files (build.py:9-16): file input. The data, the recipe and the templates are parameters.
- The template files' text: they are functions of their keyword arguments. A template naming an unknown placeholder would raise in Python; that is not modelled.
- Python's `str` of a dict, used when a standard-notation education point is a group: it is the `groupText` parameter, not a modelled repr.
- Command-line handling and the recipe-name lookup (build.py:161-167): plumbing.
- Deleting and creating the build directory, and copying the `.cls` file (build.py:169-171): file-system effects.
- Writing `resume.tex` and the section files (build.py:173-189): only their text is modelled.
- The files a run has already written when a builder aborts it are not modelled: `resume.tex`, written at build.py:180 before any builder runs, and the section files of earlier rows. `Build` returns only the error.
- The `xelatex` run (build.py:191): an external process.
- A data record lacking a field the builders read raises `KeyError` in Python. Examples: `tech` at build.py:68, `href` at build.py:86, `employer` at build.py:112, `notation` at build.py:127. The records here always have every field, so that abort is not modelled.
- A recipe lacking one of the five section keys or `exclude`: the recipe is a record with every field present. In Python the missing key raises.
- JSON values of unexpected types are not modelled. Examples: a non-string point text, an `exclude` given as a string (Python would test substrings), a project point whose value is a dict, or groups nested deeper than one level. Every value has the type the builders expect.
- Distinct keys in a points map are not required: no builder depends on it.

