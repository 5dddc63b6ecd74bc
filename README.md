# asphyxiate: the Doxygen-XML-to-docutils transformer

asphyxiate is a Sphinx extension. Its `doxygenfile` directive reads Doxygen's
XML output and turns the declarations of one C file into docutils nodes:
sections, titles, warnings, and calls of the Sphinx C-domain directives
(`c:function`, `c:macro`, `c:type`, `c:member`). This project models that
transformer in `asphyxiate/__init__.py` and proves what it produces.

The model has two layers.

- **Functions.** Module `Transform` defines every renderer as a function.
  Its `Ok` value is the list of items the Python generator yields. Its `Err`
  value is the exception that ends the rendering.
- **Methods.** Module `Renderer` writes the same renderers the way the
  source runs them: content lists and sections built by appending in loops,
  and generators drained one child at a time. Each method is proved to
  compute its function. `FileDirective.RunDirective` is the directive's
  `run` together with `listify`.

### Two kinds of failure

- **Soft.** A tag with no `render_<tag>` yields a warning node and a
  reporter warning, and rendering goes on. This holds for the ASCII tag names
  Doxygen writes; see `TransformLemmas.UnknownTagIsSoft` under "Left out".
- **Hard.** These stop the whole directive:
  - a missing `(tag, kind)` renderer, a non-public memberdef, a sectiondef
    kind with no title, or a compound whose kind is not `file`
    (`CannotHandle`);
  - a missing attribute (`MissingAttribute`);
  - a missing `./x/text()[0]` (`MissingText`);
  - a missing document (`MissingDocument`);
  - nested document loads beyond the fuel bound (`RecursionLimit`);
  - the missing configuration setting (`MissingConfig`).

### Modules

- `Xml`: the parsed XML, and the XPath steps the source uses (`get`,
  `./tag/text()`, `./outer/para/text()`, string value, and descendant
  search).
- `PyText`: Python's `repr` of a string, used to quote the unknown tag.
- `Docs`: the output nodes, the errors, and `Then`. `Then` concatenates the
  items of consecutive renderings, and the first failure wins.
- `Transform` and `TransformLemmas`: the renderers as functions, and their
  properties.
- `Renderer`: the imperative renderers.
- `FileDirective`: the index lookup and the directive.
- `Scenarios`: concrete inputs. These are the function `add`, the same
  function made protected, the struct `Point`, and a directive naming a file
  the index does not list.

### Where the model departs from the source

- **Documents are a map.** The documents of the Doxygen output directory are
  a map in `Transform.Context`, keyed by refid. The index `index.xml` is the
  entry `"index"`.
- **Fuel bounds document loads.** The source can load documents inside each
  other without end; the model gives up after `fuel` loads.
  `TransformLemmas.FuelMonotone` proves that more fuel changes nothing except
  the outcome `RecursionLimit`.
- **Missing text is an error, not a precondition.** Where the source indexes
  `./x/text()[0]` and gets nothing, Python raises `IndexError`. The model
  returns `MissingText(x)` for that case and requires nothing of the input.
- **A missing `kind` raises `KeyError`.** Every "cannot handle" assert
  formats `node.attrib['kind']` in its message. When the attribute is
  absent, that lookup raises `KeyError` before the assert can raise, and the
  model returns `MissingAttribute("kind")`.
- **Only the renderers in the code exist.** There is no renderer for
  paragraphs, references, parameter lists or admonitions, so those tags get
  the unknown-tag warning. The `prot` attribute is checked only by the four
  memberdef renderers; compounds, structs and inner classes are rendered
  whatever their protection.

## Model

| member | source | states |
|---|---|---|
| Xml.Attr | asphyxiate/__init__.py:203 | `node.get(name)` is Some exactly when the attribute is present, and is then its value |
| Xml.FirstText | asphyxiate/__init__.py:48-50 | `./tag/text()[0]` is None exactly when no tagged child has a text node; otherwise it is the first of those texts, which is never empty |
| Xml.ChildrenTaggedMembers | asphyxiate/__init__.py:53 | `./tag` selects a child exactly when it is a child with that tag |
| Xml.ExcludeKeeps | asphyxiate/__init__.py:220-228 | no child with a skipped tag survives the children filter |
| Xml.ExcludeAppend | asphyxiate/__init__.py:220-228 | filtering two runs of children gives the two filtered runs, in the same order |
| Xml.ExcludeInsertSkipped | asphyxiate/__init__.py:211 | inserting a child with a skipped tag anywhere leaves the kept children unchanged |
| Xml.ChildrenTaggedAppend | asphyxiate/__init__.py:236 | `./tag` over two runs of children selects from the first run, then from the second |
| Xml.ChildrenTaggedInsert | asphyxiate/__init__.py:236 | inserting a child with another tag anywhere leaves what `./tag` selects unchanged |
| PyText.QuoteFor | asphyxiate/__init__.py:339-342 | `repr` picks double quotes exactly when the text holds a single quote and no double quote |
| PyText.EscapeChar | asphyxiate/__init__.py:339-342 | a character is copied unchanged exactly when it is not the quote, not a backslash and not an ASCII control character |
| PyText.PyRepr | asphyxiate/__init__.py:339-342 | the quoted text starts and ends with the chosen quote |
| PyText.PlainRepr | asphyxiate/__init__.py:339-342 | a tag of plain characters is quoted verbatim between single quotes |
| PyText.EscapePlain | asphyxiate/__init__.py:339-342 | a text of plain characters escapes to itself |
| Docs.Message | asphyxiate/__init__.py:42-43 | a CannotHandle error reads "cannot handle <tag> kind=<kind>"; the configuration error reads "missing config setting asphyxiate_doxygen_xml" |
| Docs.Then | asphyxiate/__init__.py:211-213 | draining two generators in turn gives the first one's failure, else the second one's failure, else both item lists concatenated |
| Docs.ThenAssociative | asphyxiate/__init__.py:220-230 | how consecutive children are grouped does not change the outcome |
| Docs.ThenUnit | asphyxiate/__init__.py:220-230 | a child that yields nothing changes nothing |
| Transform.TagRenderer | asphyxiate/__init__.py:337 | a tag has a renderer exactly when it is memberdef, sectiondef, compounddef, compound or innerclass |
| Transform.KindRenderer | asphyxiate/__init__.py:185-188 | a (tag, kind) pair has a renderer exactly when it is memberdef with function, define, typedef or variable, or compounddef with file or struct |
| TransformLemmas.RenderSeqAppend | asphyxiate/__init__.py:311-313 | rendering two runs of elements gives the rendering of the first, then that of the second |
| TransformLemmas.RenderSeqSingle | asphyxiate/__init__.py:311-313 | rendering a run of one element is rendering the element |
| TransformLemmas.PrefixStep | asphyxiate/__init__.py:311-313 | each further element adds exactly its own rendering |
| TransformLemmas.PrefixErr | asphyxiate/__init__.py:311-313 | a failure among the first elements is the failure of the whole loop |
| TransformLemmas.ExcludedPrefixStep | asphyxiate/__init__.py:220-230 | each further child adds nothing when its tag is skipped, and its own rendering when it is kept |
| TransformLemmas.ExcludedPrefixErr | asphyxiate/__init__.py:220-230 | a failure among the first children is the failure of the whole filtered loop |
| TransformLemmas.DispatchCompounddef | asphyxiate/__init__.py:285-294 | a compounddef is rendered by the kind dispatch |
| TransformLemmas.DispatchCompound | asphyxiate/__init__.py:297-313 | a file compound passes render_compound's check and is rendered as the document its refid names |
| TransformLemmas.DispatchStruct | asphyxiate/__init__.py:285-294 | a struct compounddef is rendered by the struct renderer |
| TransformLemmas.DispatchFile | asphyxiate/__init__.py:285-294 | a file compounddef is rendered by the file renderer |
| TransformLemmas.UnknownTagIsSoft | asphyxiate/__init__.py:335-350 | a tag with no renderer never fails: it yields exactly the warning, then the reporter warning at the directive's line, with the same message; for a plain tag the message is `asphyxiate: No renderer found for doxygen tag '<tag>'` |
| TransformLemmas.KindDispatchIsHard | asphyxiate/__init__.py:183-192 | for memberdef and compounddef, a missing kind fails with KeyError; a pair with no renderer fails with "cannot handle <tag> kind=<kind>"; any other pair gives exactly its renderer's result |
| TransformLemmas.MemberdefRequiresPublic | asphyxiate/__init__.py:42-43 | each of the four memberdef renderers fails with the "cannot handle" error unless prot is public |
| TransformLemmas.FunctionUsage | asphyxiate/__init__.py:47-51 | a public function yields one `function` directive with the usage type + " " + name + argsstring and the content lines |
| TransformLemmas.VariableUsage | asphyxiate/__init__.py:155-158 | a public variable yields one `member` directive with the usage type + " " + name |
| TransformLemmas.NameOnlyUsage | asphyxiate/__init__.py:84-86 | a public define yields one `macro` directive and a public typedef one `type` directive, each with the bare name as usage |
| TransformLemmas.MissingNameFails | asphyxiate/__init__.py:85 | a define or typedef with no name text fails with IndexError |
| TransformLemmas.MemberdefYieldsOneDirective | asphyxiate/__init__.py:59-73 | a memberdef that renders yields exactly one directive, whose content is the content lines |
| TransformLemmas.PairedShape | asphyxiate/__init__.py:53-55 | the paired list is twice as long as the texts; even positions hold the texts in order and odd positions hold empty lines |
| TransformLemmas.PairedSnoc | asphyxiate/__init__.py:53-55 | one more text appends that text and an empty line |
| TransformLemmas.PairedAppend | asphyxiate/__init__.py:52-58 | pairing two runs of texts gives the two paired runs, in order |
| TransformLemmas.ContentLinesShape | asphyxiate/__init__.py:52-58 | the content lines are each brief-description text and then each detailed-description text, in order, each followed by an empty line |
| TransformLemmas.SectionTitles | asphyxiate/__init__.py:196-206 | exactly func, define, typedef and public-attrib have titles: Functions, Defines, Types and Members |
| TransformLemmas.SectiondefShape | asphyxiate/__init__.py:195-214 | an unknown sectiondef kind fails; a titled kind gives exactly one section with ids = kind, its title, then the items of every non-location child in order, when those render, and a failing child's error otherwise; any success has that shape |
| TransformLemmas.LocationIgnored | asphyxiate/__init__.py:211 | a location child, wherever it stands, changes nothing in a sectiondef's rendering |
| TransformLemmas.FileCompoundSkips | asphyxiate/__init__.py:217-230 | a file compounddef yields the items of its kept children, with no wrapping; adding a skipped child anywhere changes nothing |
| TransformLemmas.FileRendersIncludes | asphyxiate/__init__.py:220-230 | a file compounddef does not skip `includes`, which has no renderer: inserting an `includes` child at any position adds exactly the unknown-tag warning pair at that place between the items of the children before and after it |
| TransformLemmas.StructSkipsIncludes | asphyxiate/__init__.py:267-279 | a struct compounddef skips `includes`: inserting such a child at any position leaves the rendering unchanged, name and content lines included |
| TransformLemmas.StructSection | asphyxiate/__init__.py:233-282 | a struct yields one section "Struct <name>": the title, then the `type` directive "struct <name>" with the content lines, then the items of the kept children in order |
| TransformLemmas.StructChildFails | asphyxiate/__init__.py:280-281 | a failing kept child of a named struct makes the struct fail with that child's error |
| TransformLemmas.StructNeedsName | asphyxiate/__init__.py:234-237 | a struct with no compoundname text fails with IndexError |
| TransformLemmas.CompoundLoadsDocument | asphyxiate/__init__.py:297-332 | a compound of kind other than file fails; a file compound or an innerclass renders every child of its referenced document's root, in order |
| TransformLemmas.MissingDocumentFails | asphyxiate/__init__.py:310 | a reference to a document that does not exist fails |
| TransformLemmas.FuelMonotone | asphyxiate/__init__.py:297-332 | with more fuel, rendering gives the same result, unless the result was the recursion limit |
| TransformLemmas.FuelSeq | asphyxiate/__init__.py:311-313 | the same monotonicity for a run of elements |
| TransformLemmas.FuelByKind | asphyxiate/__init__.py:183-192 | the same monotonicity for the kind dispatch |
| TransformLemmas.FuelDocument | asphyxiate/__init__.py:316-332 | the same monotonicity for one document load |
| Renderer.SectionNode.constructor | asphyxiate/__init__.py:208 | a new section has the given ids and no children |
| Renderer.SectionNode.Append | asphyxiate/__init__.py:209 | `sec.append(n)` adds n after the existing children |
| Renderer.SectionNode.AppendAll | asphyxiate/__init__.py:212-213 | appending each item in turn adds all the items, in order |
| Renderer.SectionNode.Value | asphyxiate/__init__.py:214 | the finished node is a section with the node's ids and children |
| Renderer.AppendPaired | asphyxiate/__init__.py:53-55 | the append loop adds each text followed by an empty line |
| Renderer.BuildContents | asphyxiate/__init__.py:52-58 | the two append loops build exactly the content lines |
| Renderer.RenderMemberdefFunction | asphyxiate/__init__.py:40-73 | computes the function renderer: the prot check, the three texts, then the directive |
| Renderer.RenderMemberdefDefine | asphyxiate/__init__.py:76-108 | computes the define renderer |
| Renderer.RenderMemberdefTypedef | asphyxiate/__init__.py:111-142 | computes the typedef renderer |
| Renderer.RenderMemberdefVariable | asphyxiate/__init__.py:145-180 | computes the variable renderer |
| Renderer.Render | asphyxiate/__init__.py:335-353 | computes the tag dispatch |
| Renderer.RenderByKind | asphyxiate/__init__.py:285-294 | computes the kind dispatch |
| Renderer.AppendRendered | asphyxiate/__init__.py:211-213 | the nested append loop adds to the section exactly the items of the kept children; if a child fails, it returns the failure the whole loop ends with |
| Renderer.RenderSectiondef | asphyxiate/__init__.py:195-214 | computes the sectiondef renderer |
| Renderer.RenderCompounddefFile | asphyxiate/__init__.py:217-230 | computes the file renderer, drained child by child |
| Renderer.RenderCompounddefStruct | asphyxiate/__init__.py:233-282 | computes the struct renderer |
| Renderer.RenderCompound | asphyxiate/__init__.py:297-313 | computes render_compound |
| Renderer.RenderDocument | asphyxiate/__init__.py:316-332 | computes the document load shared by render_compound and render_innerclass |
| Renderer.RenderAll | asphyxiate/__init__.py:311-313 | draining `for node in root: for item in render(node): yield item` into one list gives the items of every element, in order, or the first failure |
| FileDirective.FileEntries | asphyxiate/__init__.py:373-376 | every selected element is a compound of kind file whose name child's string value is exactly the file name |
| FileDirective.FileEntriesMembers | asphyxiate/__init__.py:373-376 | an element is selected exactly when it is in the index and is such an entry |
| FileDirective.FileEntriesAppend | asphyxiate/__init__.py:373-376 | selection keeps document order |
| FileDirective.FileEntriesNone | asphyxiate/__init__.py:373-376 | with no entries for the name, nothing is selected |
| FileDirective.EntriesRenderAsDocuments | asphyxiate/__init__.py:297-313 | every selected compound is rendered as the document its refid names |
| FileDirective.RunDirective | asphyxiate/__init__.py:360-378 | computes `run` under `listify`; without the setting it fails with the configuration error; it succeeds only when the setting and the index are present |
| FileDirective.MissingConfigFails | asphyxiate/__init__.py:366-368 | without the setting the directive fails the same way whatever the documents, the fuel and the file name |
| FileDirective.NoMatchIsEmpty | asphyxiate/__init__.py:373-378 | when nothing matches, the directive returns no items and no error |
| FileDirective.RunRendersMatches | asphyxiate/__init__.py:373-378 | the directive's items are those of the documents of exactly the matching file compounds, in index order |
| FileDirective.SingleMatch | asphyxiate/__init__.py:373-378 | with one match, the directive yields exactly that compound's document items |
| Scenarios.AddRendersSignature | asphyxiate/__init__.py:40-73 | the public function add yields one directive with the signature "int add(int a, int b)" and its brief description |
| Scenarios.ProtectedAddFails | asphyxiate/__init__.py:42-43 | the protected add fails with cannot handle memberdef kind=function |
| Scenarios.MemberRenders | asphyxiate/__init__.py:145-180 | the public int member `x` yields the member directive "int x" |
| Scenarios.AttributesRender | asphyxiate/__init__.py:195-214 | the public-attrib section is titled Members and lists x, then y |
| Scenarios.PointRenders | asphyxiate/__init__.py:233-282 | struct Point yields the section "Struct Point": title, the type directive "struct Point", then the Members section |
| Scenarios.UnlistedFileIsEmpty | asphyxiate/__init__.py:373-378 | a directive naming a file the index does not list yields nothing and raises nothing |

## Left out

- Sphinx's C-domain directives (`CDomain.directives[...]` and their `run()`). Sphinx is a foreign library, so each call is one opaque `Directive` node holding the directive name, the usage and the content lines. Anything Sphinx builds from them, such as parameter field lists, is not modelled.
- Parsing with `etree.parse` and building paths with `os.path.join`. This is file I/O: the parsed documents are the map in `Transform.Context`, and a missing file is `MissingDocument`.
- `log`, the `getChild` kludge, `setup()` and the nose workaround. These are host plumbing.
- The `globals()` lookup built from strings. It is replaced by the two case tables `TagRenderer` and `KindRenderer`, which hit and miss on the same names.
- Comments and processing instructions among an element's children. lxml yields them in `for child in node`, and their tag is not a string.
- `listify`'s branch for a result that is not iterable. `run` is a generator, so that branch never runs here.
- The exception types and their tracebacks. Each hard failure is one `Error` value, and `Message` gives the message text where the source writes one.
- Transform.RenderDocument: Python's own recursion limit is replaced by the fuel count of nested document loads. Beyond the fuel the model answers `RecursionLimit`, and `FuelMonotone` shows it never answers anything else differently.
- PyText.EscapeChar: non-ASCII characters are copied as they are. In the source the warning text of asphyxiate/__init__.py:339-342 is never built for a non-ASCII tag: under Python 2, which the source targets, lxml returns such a tag as a `unicode` value, and `'render_{name}'.format(...)` at asphyxiate/__init__.py:337 already raises `UnicodeEncodeError`. The character escaping the model writes out is therefore only ever reached for ASCII tags, where it agrees with the source.
- TransformLemmas.UnknownTagIsSoft: holds in the source only for ASCII tags. The model formats text into byte strings as if the values were always ASCII. Under Python 2, `str.format` with a non-ASCII `unicode` value raises `UnicodeEncodeError`. The model returns a result where the source raises, at these points: the renderer lookup by tag (asphyxiate/__init__.py:337, so a non-ASCII tag fails hard instead of giving the warning pair); the four usage strings built from `type`, `name` and `argsstring` (asphyxiate/__init__.py:47-51, 84-86, 118-120, 155-158); and the struct's title and usage built from `compoundname` (asphyxiate/__init__.py:235-237, 241-243). Doxygen writes ASCII tag names; the model does not distinguish text encodings.
- Running Python with `-O` removes the asserts, along with the prot and kind checks. This mode is not modelled.
- The struct renderer rebinds `directive` to the `c:type` directive before it renders its children (asphyxiate/__init__.py:251-263). The model keeps the old context. The new directive copies `lineno`, `content_offset`, `state` and `state_machine` from the old one, and those are all the children read from it. The reporter and the configuration are reached through `state`.
- `asphyxiate/test/*`, the C sample headers and `setup.py`. They drive doxygen and Sphinx as subprocesses, or they are packaging metadata.
