# MCP tool servers: a Dafny model

This project models the request-building and result-handling logic of three small Model Context
Protocol (MCP) servers, each built on FastMCP:

- **Fal AI server** (`mcp/servers/fal_ai_server/main.py`) has two tools:
  - `improve_user_query_for_flux` asks a chat model to rewrite a user query into a FLUX.1 prompt that
    uses the LoRA trigger word "Esteban".
  - `generate_image_with_lora` sends a one-LoRA configuration to the `fal-ai/flux-lora` model. It takes
    the first image's url, base64-decodes the text after its first comma (up to the next comma, if any) and returns an image. Any
    failure comes back as the string `"Error generating image: <message>"`.
- **Demo server** (`main.py`) has the tool `add`, the resource `greeting://{name}` and the prompt
  `greet_user`. It also holds a second copy of the `FalAILora`/`Config` dataclasses and of
  `generate_image_with_lora`, at `main.py` lines 41-121. The copies differ from the Fal AI server's
  only in a docstring, so each is modelled once. The table below cites both files.
- **Knowledge server** (`mcp/servers/chanel_knowledge_server/main.py`) has two tools:
  - `search_documents` embeds a query and runs one hybrid semantic search (text plus vector) on one
    of two indexes. It projects every returned row onto title, text and reranker score.
  - `search_web` forwards the query to a web-search client with fixed options.

Modules:

| file | module | what it holds |
|---|---|---|
| `wrappers.dfy` | `Wrappers` | `Option` and `Result` types |
| `values.dfy` | `PyValues` | Python values at the remote boundaries; dict and list subscripting with Python's exception messages; `str.split` and its inverse `join` |
| `base64.dfy` | `Base64` | RFC 4648 section 4 base64 encoder and decoder, proved to be mutual inverses |
| `fal_payload.dfy` | `FalPayload` | the two dataclasses and their `to_dict` serialisers, plus a parser proved to invert them |
| `image_tool.dfy` | `ImageTool` | `generate_image_with_lora` |
| `prompt_tool.dfy` | `PromptTool` | `improve_user_query_for_flux` |
| `demo_server.dfy` | `DemoServer` | `add`, `get_greeting`, `greet_user` |
| `knowledge_server.dfy` | `KnowledgeServer` | `search_documents` (the row-normalising loop is a method with its invariant) and `search_web` |

Every remote service is a function parameter. A parameter of type `Result` models an exception by
its message. The image client, chat client, embedding client, search client and web-search client are
all modelled this way.

Where the code does something other than what a reader of the servers' descriptions might expect, the
model follows the code:

- **No `data:` prefix check.** The image url is never checked for a `data:` prefix. Whatever url
  comes back is split at commas. Piece `[1]` is taken, which is the text between the first comma and
  the second comma or the end. A url without a comma fails with the `IndexError` of that subscript.
  A payload holding a comma is cut at it.
- **Every image is tagged "png".** This holds whatever media type the url declares.
- **The trigger word comes first.** In the user message the trigger word precedes the query:
  `trigger_word: Esteban\nquery: <query>`.
- **Search results keep the service's order.** They are returned in the order the search service
  gave them. Nothing is re-sorted and nothing is filtered by score.

## Model

| member | source | states |
|---|---|---|
| PyValues.GetItem | mcp/servers/fal_ai_server/main.py:180-181 | `v[key]` succeeds exactly when `v` is a dict holding `key`, and yields that entry. A dict without the key fails with the KeyError message `'key'`. |
| PyValues.GetFirst | mcp/servers/fal_ai_server/main.py:180 | `v[0]` on a list succeeds exactly when the list is non-empty, and yields its first element. An empty list fails with "list index out of range". |
| PyValues.Split | mcp/servers/fal_ai_server/main.py:183 | `s.split(sep)` gives at least one piece, and no piece contains the separator. Its inverse is stated by SplitJoin. |
| PyValues.SplitJoin | mcp/servers/fal_ai_server/main.py:183 | `split` loses nothing: joining the pieces with the separator gives the string back, and no piece contains the separator. |
| PyValues.SplitNoSeparator | mcp/servers/fal_ai_server/main.py:183 | A string without the separator splits into itself alone, so piece `[1]` does not exist. |
| PyValues.SplitAtFirst | mcp/servers/fal_ai_server/main.py:183 | Piece `[0]` is the text before the first separator; the remaining pieces are the split of the text after it. |
| Base64.Encode | mcp/servers/fal_ai_server/main.py:184 | An encoding is a whole number of 4-character groups, and is empty exactly for empty input. |
| Base64.EncodeLength | mcp/servers/fal_ai_server/main.py:184 | An encoding of n bytes has 4·⌈n/3⌉ characters. |
| Base64.EncodeHasNoComma | mcp/servers/fal_ai_server/main.py:183-184 | An encoding never contains a comma, so it survives `split(",")` whole. |
| Base64.CharOf | mcp/servers/fal_ai_server/main.py:183-184 | No value is encoded as the pad character or as a comma. |
| Base64.SextetCharInverse | mcp/servers/fal_ai_server/main.py:184 | The alphabet is a bijection between the values 0..63 and its 64 characters. |
| Base64.DecodeGroup | mcp/servers/fal_ai_server/main.py:184 | A group of four characters decodes to one to three bytes, and any group before the last decodes to exactly three. |
| Base64.DecodeGroups | mcp/servers/fal_ai_server/main.py:184 | An accepted sequence of g groups decodes to between 3g − 2 and 3g bytes, and to at least one when g > 0. |
| Base64.Decode | mcp/servers/fal_ai_server/main.py:184 | A length that is not a multiple of four fails with "Incorrect padding". An accepted text of 4g characters decodes to between 3g − 2 and 3g bytes, and to none only when it is empty. Its meaning is stated by DecodeEncode and EncodeDecode. |
| Base64.DecodeEncode | mcp/servers/fal_ai_server/main.py:184 | Decoding the encoding of any byte string gives the bytes back. |
| Base64.EncodeDecode | mcp/servers/fal_ai_server/main.py:184 | Every text the decoder accepts is the encoding of the bytes it decodes to, so no two accepted texts decode to the same bytes. |
| FalPayload.Defaults | mcp/servers/fal_ai_server/main.py:21-48 | The dataclass defaults: LoRA scale 1.0 and an empty trigger word; sync mode on, image size landscape_4_3, 28 steps, guidance 3.5, one image, safety checker on, png output. |
| FalPayload.LoraToDict | mcp/servers/fal_ai_server/main.py:29-33 | A LoRA serialises to exactly the keys path and scale; the trigger word is never sent. |
| FalPayload.LorasToList | mcp/servers/fal_ai_server/main.py:53 | The serialised list has one map per LoRA, in the configured order. |
| FalPayload.ConfigToDict | mcp/servers/fal_ai_server/main.py:50-61 | A configuration serialises to exactly the nine request keys, and its `loras` entry is the serialised LoRA list. |
| FalPayload.ParseLorasOfList | mcp/servers/fal_ai_server/main.py:53 | Reading back a serialised LoRA list gives the LoRAs, each with its trigger word cleared. |
| FalPayload.ParseLoraInverse | mcp/servers/fal_ai_server/main.py:29-33 | Every well-formed LoRA map is the serialisation of the LoRA read from it. |
| FalPayload.ListOfParseLoras | main.py:73 | Every well-formed LoRA list is the serialisation of the LoRAs read from it. |
| FalPayload.ConfigRoundTrip | mcp/servers/fal_ai_server/main.py:50-61 | Reading back a request map gives the configuration with its trigger words cleared: every other field is carried exactly. |
| FalPayload.PayloadRoundTrip | main.py:70-81 | Every well-formed request map is the serialisation of the configuration read from it, so serialisation is onto the well-formed maps. |
| FalPayload.TriggerWordsNotSent | main.py:49-53 | Two configurations that differ only in trigger words send the same request map. |
| ImageTool.RequestConfig | mcp/servers/fal_ai_server/main.py:158-171 | The tool's configuration: the caller's prompt and image count; one LoRA at the configured path with scale 1.0 and trigger word Esteban; the default size, steps, guidance, safety checker and format. |
| ImageTool.Request | mcp/servers/fal_ai_server/main.py:174-177 | The request map (`config.to_dict()`) has exactly the nine request keys. It holds the caller's prompt and image count and a single LoRA map with the configured path and scale 1.0. The rest of its content is stated by RequestCarriesConfig. |
| ImageTool.RequestCarriesConfig | main.py:91-110 | The model receives exactly that configuration, without the trigger word. |
| ImageTool.ExtractImage | mcp/servers/fal_ai_server/main.py:180-185 | Image extraction yields only png-tagged images. |
| ImageTool.Contain | mcp/servers/fal_ai_server/main.py:187-188 | A failed model call becomes exactly the prefixed message. Every error result carries the prefix, and every success is a png image. |
| ImageTool.GenerateImageWithLora | mcp/servers/fal_ai_server/main.py:151-188 | The tool never raises: it returns either a png image or a message starting "Error generating image: ". |
| ImageTool.ContainUrl | mcp/servers/fal_ai_server/main.py:180-188 | Once the first image's url is a string, the result is determined by piece `[1]` of that url: its decoded bytes, or the prefixed error. |
| ImageTool.InlineDataRoundTrip | main.py:112-118 | For a `data:<type>;base64,<payload>` url whose type has no comma, the tool returns exactly the encoded bytes, tagged png. |
| ImageTool.RemoteFailureContained | mcp/servers/fal_ai_server/main.py:174-188 | A failing model call is returned as the prefixed exception message. |
| ImageTool.NoImagesContained | mcp/servers/fal_ai_server/main.py:180 | An empty image list is returned as the prefixed "list index out of range". |
| ImageTool.MissingImagesContained | main.py:113 | A reply without `images` is returned as the prefixed KeyError message `'images'`. |
| ImageTool.UrlWithoutCommaContained | mcp/servers/fal_ai_server/main.py:183 | A url without a comma is returned as the prefixed "list index out of range". |
| ImageTool.BadPayloadContained | main.py:116-121 | A payload the decoder rejects is returned as the prefixed decoder message. |
| PromptTool.ImproveMessages | mcp/servers/fal_ai_server/main.py:130-139 | Exactly two messages are sent. The system message comes first and carries the prompting guide unchanged. The user message is exactly `trigger_word: Esteban\nquery: ` followed by the query. |
| PromptTool.TriggerInUserMessageOnly | mcp/servers/fal_ai_server/main.py:130-139 | The system message does not depend on the query, and the user message begins with the trigger-word label and "Esteban". |
| PromptTool.UserContentDeterminesQuery | mcp/servers/fal_ai_server/main.py:137 | The user message determines the query: distinct queries give distinct messages. |
| PromptTool.ImproveUserQueryForFlux | mcp/servers/fal_ai_server/main.py:140-148 | The chat call is gpt-4o at temperature 0.7 on those messages. The tool returns a prompt exactly when the chat produced one, and then returns that prompt. A chat exception passes through unchanged. A reply with no parsed object fails with the AttributeError on `None`. |
| DemoServer.Add | main.py:16-18 | The result is the sum of the two arguments, on unbounded integers. |
| DemoServer.GetGreeting | main.py:23-25 | The greeting is `Hello, `, then the name, then `!`. |
| DemoServer.GreetingDeterminesName | main.py:25 | Distinct names get distinct greetings. |
| DemoServer.StyleSentence | main.py:32-38 | A known style selects its own sentence; any other style falls back to the friendly one. |
| DemoServer.GreetUser | main.py:30-38 | The prompt is the style's sentence, then ` for someone named `, then the name and a full stop. |
| DemoServer.SentenceAtFifteen | main.py:32-36 | The three style sentences differ at their sixteenth character, so that character identifies the sentence. |
| DemoServer.UnknownStyleIsFriendly | main.py:30-38 | An unknown style gives the same prompt as the default style. |
| DemoServer.GreetUserInjective | main.py:32-38 | Two prompts are equal exactly when their names and their style sentences are equal. |
| KnowledgeServer.IndexName | mcp/servers/chanel_knowledge_server/main.py:37 | The index is one of the two literal names, and the two choices name different indexes. |
| KnowledgeServer.SemanticConfigurationName | mcp/servers/chanel_knowledge_server/main.py:61 | The semantic configuration is the index name followed by "-semantic-configuration". |
| KnowledgeServer.ConfigurationNameInjective | mcp/servers/chanel_knowledge_server/main.py:61 | Different indexes use different semantic configurations. |
| KnowledgeServer.SearchRequestFor | mcp/servers/chanel_knowledge_server/main.py:45-63 | The search request. `k` bounds both the nearest-neighbour search and the page size. There is one vector query on `content_embedding` with weight 0.7. The query text is searched in semantic mode on the chosen index with its configuration. |
| KnowledgeServer.CleanRow | mcp/servers/chanel_knowledge_server/main.py:67-71 | A row is cleaned exactly when it is a dict with the three fields. The result is then exactly the title, the text and the reranker score under `score`. A row without `document_title` fails with that key's KeyError. |
| KnowledgeServer.CleanRows | mcp/servers/chanel_knowledge_server/main.py:65-72 | A successful normalisation has one output per row. Its full meaning is stated by CleanRowsProjects. |
| KnowledgeServer.CleanRowsProjects | mcp/servers/chanel_knowledge_server/main.py:65-73 | Normalisation succeeds exactly when every row has the three fields. It then keeps the number and order of rows, and each output holds exactly the title, the text and the reranker score under `score`. |
| KnowledgeServer.CleanRowsFirstFailure | mcp/servers/chanel_knowledge_server/main.py:66-71 | A failed normalisation reports the KeyError of the first row that lacks a field. |
| KnowledgeServer.CleanRowsStopAtFailure | mcp/servers/chanel_knowledge_server/main.py:66-72 | Once a prefix of the rows fails, the whole normalisation fails with the same message. |
| KnowledgeServer.NormaliseResults | mcp/servers/chanel_knowledge_server/main.py:65-73 | The loop builds the normalisation of all the rows, or stops at the first failure. |
| KnowledgeServer.SearchDocuments | mcp/servers/chanel_knowledge_server/main.py:36-73 | An embedding or search failure propagates unchanged. The query is embedded with the model "text-embedding-3-large". Otherwise the result is the normalisation of the rows returned for the request built from that embedding. |
| KnowledgeServer.SearchWeb | mcp/servers/chanel_knowledge_server/main.py:77-88 | The web-search response is returned unchanged, for a request with the query, depth "standard" and output type "searchResults". |

## Left out

- **Remote services.** The remote calls are parameters of the model, and their behaviour is not modelled: `fal_client.subscribe`, the Azure OpenAI chat and embedding calls, the Azure AI Search client and the Linkup client. The search service's hybrid ranking, semantic reranking and scores are opaque.
- **Environment variables.** Keys, endpoints and API versions only configure the clients, so they are not modelled. `LORA_PATH` is the `loraPath` parameter; an unset variable (`None`) is not distinguished from a path.
- **FastMCP.** Server construction, tool/resource/prompt registration, argument validation against the type hints, transports (`sse`, `stdio`) and the `__main__` entry points are not modelled.
- **Client scoping.** The `with` blocks that open and close the clients are not modelled: resource release is not observable in the results.
- **Embedding extraction.** `embed_query`'s extraction of `response.data[0].embedding` is folded into the embedding parameter.
- **Chat reply extraction.** `choices[0].message.parsed` is folded into the chat parameter, which answers with the parsed `prompt` field or with None.
- **Prompting guide.** The FLUX prompting guide text in `improve_user_query_for_flux` is a parameter: only its place in the system message is modelled, not its content.
- **Floats.** Python floats (`scale`, `guidance_scale`, the vector weight and the embedding) are Dafny reals. They are only carried, never computed with, so rounding does not arise.
- **Dict ordering.** Python dicts are modelled as maps, so key order in the request maps and the result rows is not modelled.
- **Image mime type.** The FastMCP `Image` is modelled by its bytes and its format tag. Its mime-type derivation and wire encoding are not modelled.
- **Unexpected response shapes.** For subscripts of values that are neither a dict nor a list, the exception messages are Python 3 texts that the model reproduces for the common cases. Exceptions from a `split` result or a `b64decode` argument of another type (`bytes`, say) are not distinguished.
- PyValues.GetItem: the KeyError text is the key in single quotes. That is Python's repr only for keys without quotes or backslashes. Every key the servers read is such a literal, so the servers never see the difference.
- Base64.Decode: stricter than Python's `b64decode`, and its error messages differ on several inputs. The model is a strict RFC 4648 decoder, so that the two round trips hold. It checks the length first, then the groups from left to right.
  - **How Python's default, non-validating decoder reads a text.** It makes one pass over the characters:
    - A non-ASCII character raises `ValueError: string argument should contain only ASCII characters`.
    - Other characters outside the alphabet are skipped.
    - A `=` that comes before the second data character of a group is skipped.
    - A `=` that completes a group stops the pass; everything after it is ignored.
    - If the pass ends with one data character in an unfinished group, it raises "Invalid base64-encoded string: number of data characters (n) cannot be 1 more than a multiple of 4". With two or three, it raises "Incorrect padding". Otherwise it returns the bytes, dropping any non-zero padding bits.
  - **Length not a multiple of four.** The model answers "Incorrect padding". Python answers by the rules above, so the two differ in three ways:
    - Python decodes a text in which skipped characters or a completed padding leave whole groups: "YW Jj", "YQ==YQ" and "YQ==Y" are examples.
    - Python raises the "number of data characters" message when one data character is left over.
    - The two agree on alphabet-only texts of 4k + 2 or 4k + 3 characters with no `=`.
  - **A bad character or a misplaced `=`, with the length a multiple of four.** The model answers "Only base64 data is allowed". A misplaced `=` is one in the first two places of a group, anywhere in a group before the last, or a lone `=` in the third place. Python answers by the rules above instead: it decodes the text, raises the non-ASCII `ValueError`, or raises one of its two end-of-pass messages. For example, "Z===" and "YWJjZ===" raise the "number of data characters (1)" and "(5)" messages.
  - **Non-zero padding bits.** The model answers "Non-zero padding bits". Python drops those bits and decodes the text.
