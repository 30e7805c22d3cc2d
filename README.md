# creative-ai-backend, modelled in Dafny

This project models the deterministic core of the creative-ai-backend
service and proves properties of it. The backend is a set of AI-backed
services: chat, research, Mermaid diagrams, voice, and document
knowledge bases. All of them are built around one semantic retrieval
layer, in which query text becomes an embedding vector, the vector is
looked up in a Qdrant collection, and an in-process `lru_cache` or a
Redis cache with TTLs sits in front of both steps.

Every external service is a parameter of the model. The embedding model,
the Qdrant index, Groq, Whisper, Kokoro and LiveKit are function-typed
oracles, or classes whose fields hold the state the service keeps.
Redis is a map from key to value and expiry time, read at an explicit
clock `now`. SHA-256 and MD5 are injective constructors. JSON text is
`EmptyText` or the serialisation of a JSON value.

Modules, one per source file, plus shared foundations:

- `Wrappers`: `Option` and `Result`.
- `Text`: the Python `str` methods used by the code (lower, strip, split and join, `in`, replace, slicing).
- `Seqs`: `range(0, len(s), n)` slicing into batches, and `s[-n:]`.
- `Json`: JSON values, `json.dumps` with and without `sort_keys`, and `json.loads`.
- `Lru`: the state of a `functools.lru_cache` as a value, with its call, eviction and `cache_clear`.
- `Buffering`: the accumulate-then-flush byte buffer shared by the LiveKit audio processor and the Whisper stream loop.
- `Retrieval`: `_build_filter`, `_process_results` and the serialisation of result lists, shared by both search variants.
- `Search` (`app/utils/search.py`) and `SearchLater` (`app/utils/search_later.py`): the two `QdrantSearch` classes.
- `DocumentProcessor`, `KnowledgeBase`, `Chunking`: the ingestion pipeline.
- `DiagramChat`, `MermaidService`, `Keywords`: diagram-type detection and architecture-to-Mermaid conversion.
- `VoiceAgent`, `LiveKit`, `SpeechToText`, `TextToSpeech`, `ModelSlot`: the voice pipeline and its session registries.
- `ChatModels`, `Chatbot`, `ResearchEngine`, `LiveKitAuth`: chat sessions, research records and the LiveKit token claims.

Code that changes state in place is modelled as classes with `modifies`
frames. Each such method is proved equal to a specification function of
the old state, or states its new state outright. The lemmas beside it
prove what the source promises about that function. Pure code is
modelled as functions and lemmas.

The model follows the code as written, including its defects; the
"## Findings" section lists those, each with the corrected behaviour
proved beside it.

## Model

| member | source | states |
|---|---|---|
| LiveKitAuth.CreateToken | app/utils/livekit_auth.py:9-55 | the issuer is the API key and the subject the user; `nbf` is the current time and `exp - nbf` is the ttl; `jti` is the room name, ":" and the user id; the video grant names the room, always allows joining and copies `can_publish`/`can_subscribe` |
| LiveKitAuth.CreateTokenMetadata | app/utils/livekit_auth.py:33-37 | the `metadata` claim is present exactly when the metadata dict is given and non-empty, and then decodes back to that dict |
| LiveKitAuth.CreateTokenDefaults | app/utils/livekit_auth.py:12-15 | without optional arguments the token lasts 3600 s, allows publishing and subscribing and carries no metadata |
| ResearchEngine.Details | app/core/research_engine.py:45 | a finding's details are a one-element list holding the context exactly when the context is truthy, and empty otherwise |
| ResearchEngine.Finding | app/core/research_engine.py:42-57 | the finding carries the given summary and source and the details of the context |
| ResearchEngine.ResearchPrompt | app/core/research_engine.py:23-31 | the deep-research prompt naming the query and the context, or "No additional context" when the context is falsy |
| ResearchEngine.ResearchTopic | app/core/research_engine.py:19-81 | one finding with the query as topic; the non-deep path asks no model and yields "Context-based research"/"context-analysis", source "context-based-analysis" and research type "context_based"; the deep path yields the model's analysis, source "deep-research" and type "deep_research"; a model error yields confidence 0.0, no sources, the error finding and error metadata; confidence is 1.0 exactly when there is a source |
| ResearchEngine.CacheKey | app/core/research_engine.py:83-90 | the key is the query when the context is falsy, and otherwise the query, ":" and the context |
| ResearchEngine.CacheKeyCollides | app/core/research_engine.py:87-90 | ("a:b", no context) and ("a", "b") get the same key |
| ResearchEngine.CacheKeyInjectiveWithoutColon | app/core/research_engine.py:87-90 | for queries without ":", equal keys mean equal queries and equal truthy contexts |
| ChatModels.NewMessage | app/models/model.py:7-10 | a message carries its content and role and the timestamp fixed when the class was defined |
| ChatModels.NewSession | app/models/model.py:12-18 | a new session has the id fixed when the class was defined, the user, no messages and no metadata |
| ChatModels.Start | app/core/chatbot.py:20-25 | a known session id reuses the stored session and leaves the registry alone; otherwise the new session is stored under its own id; either way every entry stays keyed by its own id |
| ChatModels.NewSessionsCollide | app/core/chatbot.py:23-25 | two sessions started without an id share the default id, so the registry keeps one session, the second user's |
| ChatModels.FreshSessionKeepsOthers | app/core/chatbot.py:23-25 | a session whose id is not in use is added and every stored session stays as it was |
| Chatbot.Prompt | app/core/chatbot.py:42-51 | the model sees the system prompt and the current message only |
| Chatbot.CreativeAIChatbot.ProcessMessage | app/core/chatbot.py:14-38 | the session is found or created, then the user message is appended; on success the assistant answer follows and the session is returned; on a model error the user message stays and "Error generating response: " and the cause is raised |
| MermaidService.DetectDiagramType | app/service/mermaid-service.py:38-49 | the result is only ever flowchart, sequence or state; a flow word gives flowchart; sequence exactly when no flow word and a sequence word occur; state exactly when only state words occur; otherwise flowchart |
| MermaidService.DetectIgnoresCase | app/service/mermaid-service.py:40 | the classification of a query and of its lowercase form are the same |
| MermaidService.FormatDiagramPrompt | app/service/mermaid-service.py:51-65 | the prompt starts with the fixed head and "Description: ", then the query verbatim, and contains "1. Use <type value> syntax" |
| MermaidService.FormatDiagramPromptInjective | app/service/mermaid-service.py:53-56 | the unused base prompt leaves the text a function of query and type alone, and different queries give different prompts |
| Keywords.Classify | app/service/mermaid-service.py:42-49 | the result is that of the first rule with a word in the text, or the default when no rule matches |
| ModelSlot.Slot.Get | app/service/text_to_speech.py:20-28 | the first call that finds no model loads it and keeps it; later calls return the kept model without loading; a failed load leaves the slot empty and raises; at most one load ever succeeds |
| TextToSpeech.Speaker | app/service/text_to_speech.py:49 | the speaker is `None` exactly for the voice id "default", and the voice id otherwise |
| TextToSpeech.Synthesize | app/service/text_to_speech.py:31-66 | only a model load failure raises; a synthesis failure gives empty audio with the configured sample rate; otherwise the synthesised audio and rate |
| TextToSpeech.StreamChunks | app/service/text_to_speech.py:84-85 | a zero chunk size raises as `range` does, a negative one yields nothing, a positive one yields the consecutive slices |
| TextToSpeech.StreamChunksSpec | app/service/text_to_speech.py:84-85 | the chunks put back together are the audio; each is non-empty and at most `chunk_size` long, all but the last exactly `chunk_size`; their number is ceil(len/chunk_size), zero for empty audio |
| TextToSpeech.StreamTextToSpeech | app/service/text_to_speech.py:69-86 | the chunks yielded are those of the synthesised audio, or of empty audio when synthesis fails; a model load failure raises |
| TextToSpeech.FailedSynthesisStreamsNothing | app/service/text_to_speech.py:63-66 | the empty audio of a failed synthesis streams no chunk (by the definition of the chunking) |
| SpeechToText.SegmentTexts | app/service/speech_to_text.py:79-80 | one text per segment, in segment order |
| SpeechToText.TranscriptionOf | app/service/speech_to_text.py:54-93 | an error inside the `try` gives ("", 0.0); no segments give ("", 0.0); otherwise the text is the segment texts joined by spaces and stripped, so it neither starts nor ends with whitespace |
| SpeechToText.TranscribeAudioChunk | app/service/speech_to_text.py:38-93 | only a model load failure raises; otherwise the result is the transcription of the audio by the loaded (or already kept) model |
| SpeechToText.Yields | app/service/speech_to_text.py:109-122 | the items yielded for the transcribed chunks in order, and the error that ends the stream (see `YieldsAreTranscriptions` and `YieldsStopAtError`) |
| SpeechToText.YieldsAreTranscriptions | app/service/speech_to_text.py:117-122 | every yielded item has non-empty text, is final, and carries the text and confidence of one chunk's transcription |
| SpeechToText.YieldsStopAtError | app/service/speech_to_text.py:109-115 | once a transcription has raised, later chunks yield nothing more |
| SpeechToText.FeedAllGrows | app/service/speech_to_text.py:109-115 | the chunks transcribed for a prefix of the stream are a prefix of those for the whole stream |
| SpeechToText.ProcessStreamingAudio | app/service/speech_to_text.py:96-122 | the loop's items and final error are those of transcribing, in order, exactly the chunks the buffer flushes when it reaches `chunk_size` |
| Buffering.Feed | app/service/livekit_service.py:111-120 | after appending the data the whole buffer is handed on and cleared exactly when it holds at least `chunk_size` bytes; otherwise it is kept |
| Buffering.FeedAll | app/service/livekit_service.py:111-120 | the final buffer and the chunks handed on after feeding a whole stream (see `FeedAllConserves`, `FeedAllBounds` and `FeedAllPrefix`) |
| Buffering.FeedAllConserves | app/service/livekit_service.py:111-120 | the chunks handed on, followed by what is still buffered, are exactly the bytes received |
| Buffering.FeedAllBounds | app/service/livekit_service.py:114-117 | with a positive chunk size the buffer stays shorter than it and every chunk handed on is at least that long |
| Buffering.FeedAllPrefix | app/service/speech_to_text.py:106-115 | the transcribed bytes are a prefix of the input and the tail never transcribed is shorter than `chunk_size` |
| LiveKit.AudioProcessor.constructor | app/service/livekit_service.py:22-29 | a new processor has no room, an empty buffer, nothing dispatched or sent, and no track handler |
| LiveKit.AudioProcessor.Start | app/service/livekit_service.py:31-49 | the result is `True` exactly when connecting succeeds; the room is then connected, and otherwise created but unconnected |
| LiveKit.AudioProcessor.Stop | app/service/livekit_service.py:51-63 | without a room it succeeds and changes nothing; with one the result is `True` exactly when disconnecting succeeds, and the room is then disconnected; a failure leaves the room as it was |
| LiveKit.AudioProcessor.EnsureTrackHandler | app/service/livekit_service.py:85-88 | afterwards the handler is set and has been registered exactly once, however often participants were set up |
| LiveKit.AudioProcessor.ProcessAudioData | app/service/livekit_service.py:109-120 | the data is appended; when the buffer reaches `chunk_size` all of it is dispatched and the buffer cleared, otherwise nothing is dispatched; the dispatched chunks followed by the buffer stay exactly the bytes received, and the buffer stays shorter than a positive `chunk_size` |
| LiveKit.AudioProcessor.SendAudio | app/service/livekit_service.py:132-153 | without a connected room it gives `False` and changes nothing; otherwise it succeeds exactly when the track exists or is created and the write succeeds, and only a success records the data as sent; the track is created at most once |
| LiveKit.LiveKitService.constructor | app/service/livekit_service.py:14 | the registry of active sessions starts empty |
| LiveKit.LiveKitService.CreateRoom | app/service/livekit_service.py:156-175 | the room name is returned as given; nothing else happens |
| LiveKit.LiveKitService.SetupAudioProcessor | app/service/livekit_service.py:212-264 | the agent token is the one for identity `agent-<session_id>` in the room with publish and subscribe rights; the result is `True` exactly when the new processor connects, and only then is it registered under the id (replacing an earlier entry) with every other entry kept |
| LiveKit.LiveKitService.CloseSession | app/service/livekit_service.py:267-294 | the result is `True` exactly when the id was registered, and afterwards the id is gone and every other entry kept; the removed session's processor has been stopped: its room is disconnected when it had one and the disconnect succeeded, and otherwise as before, and its buffers, track and handler are unchanged |
| LiveKit.LiveKitService.SendAudioToRoom | app/service/livekit_service.py:297-317 | an unknown id gives `False`; for a known id the result is that of the processor's `send_audio` on the room it had before the call: refused without a connected room, otherwise `True` exactly when the track exists or is created and the write succeeds; the data is recorded as sent exactly when `True` is returned; the track exists afterwards exactly when it did before or the room was connected and its creation succeeded; the room, the buffer, the received data, the handler and the registry are unchanged |
| VoiceAgent.DefaultRoomName | app/service/voice_agent_service.py:117-118 | the default room name is "voice-agent-" followed by the first eight characters of the session id (all of it when shorter) |
| VoiceAgent.AfterUtterance | app/service/voice_agent_service.py:64-87 | the conversation after an utterance (see `AfterUtteranceSpec` and `AfterUtteranceAlternates`) |
| VoiceAgent.AfterUtteranceSpec | app/service/voice_agent_service.py:64-87 | a blank stripped buffer leaves the conversation unchanged; otherwise the buffer is emptied and the history gains exactly the user turn with the stripped query and the assistant turn with the response generated from the history that already holds the query; user, room and callback are kept |
| VoiceAgent.AfterUtteranceAlternates | app/service/voice_agent_service.py:77-87 | a history made of user/assistant pairs stays made of such pairs after an utterance |
| VoiceAgent.Buffered | app/service/voice_agent_service.py:45 | the buffer grows by exactly the text followed by one space, keeping what it held; history and callback are kept |
| VoiceAgent.BufferedTextNotBlank | app/service/voice_agent_service.py:45-50 | text that does not start with whitespace leaves a buffer that is not blank once stripped, so processing it always records an exchange |
| VoiceAgent.UtteranceStep | app/service/voice_agent_service.py:53-94 | `process_utterance` as a function of the registry and callback log before it (see `UtteranceIdle`, `UtteranceUpdates`, `UtteranceSucceeds` and `UtteranceCallsBack`) |
| VoiceAgent.TranscriptionStep | app/service/voice_agent_service.py:22-50 | `handle_transcription` as a function of the state before it (see `TranscriptionIgnored` and `TranscriptionBuffers`) |
| VoiceAgent.UtteranceIdle | app/service/voice_agent_service.py:60-68 | an unknown session or a blank buffer changes nothing and returns normally |
| VoiceAgent.UtteranceUpdates | app/service/voice_agent_service.py:64-87 | otherwise the conversation is replaced by the processed one whatever happens afterwards, and every other conversation is kept |
| VoiceAgent.UtteranceSucceeds | app/service/voice_agent_service.py:90-94 | a processed utterance returns normally exactly when speech synthesis returns, a callback is registered and the callback returns |
| VoiceAgent.UtteranceCallsBack | app/service/voice_agent_service.py:90-94 | the callback is called once, with the response just added to the history, its audio and the session id, exactly when speech is synthesised and a callback is registered; otherwise it is not called |
| VoiceAgent.TranscriptionIgnored | app/service/voice_agent_service.py:30-38 | audio for an unknown session, a transcription that raises, empty text or a confidence below 0.6 change nothing and process no utterance; only the raising transcription fails |
| VoiceAgent.TranscriptionBuffers | app/service/voice_agent_service.py:41-50 | accepted text is added to the buffer; the utterance is processed, on the registry holding the grown buffer, exactly when the text holds '.', '?' or '!' or the buffer is longer than 200 characters; otherwise only the buffer changes |
| VoiceAgent.VoiceAgentService.constructor | app/service/voice_agent_service.py:19 | the registry of conversations starts empty and no callback has been called |
| VoiceAgent.VoiceAgentService.ProcessUtterance | app/service/voice_agent_service.py:53-94 | the result, the registry and the callback calls afterwards are those the utterance step gives, whose properties the lemmas above state |
| VoiceAgent.VoiceAgentService.HandleTranscription | app/service/voice_agent_service.py:22-50 | the result, whether an utterance was processed, the registry and the callback calls afterwards are those the transcription step gives |
| VoiceAgent.VoiceAgentService.InitializeVoiceAgent | app/service/voice_agent_service.py:97-151 | an empty or missing room name is replaced by the default one; the token is issued for the user and that room with the session id as metadata; a fresh conversation with empty history and buffer is stored under the id whether or not the audio processor starts; the LiveKit session is registered exactly when it connects, and then holds a fresh, valid, connected processor for that room while every other LiveKit session is kept |
| VoiceAgent.VoiceAgentService.TerminateVoiceAgent | app/service/voice_agent_service.py:154-170 | the LiveKit session is always gone afterwards, and its processor, when it had one, was stopped as `CloseSession` states; the result is `True`, and the conversation removed, exactly when both the LiveKit session and the conversation existed |
| DiagramChat.DetectDiagramType | app/core/diagram_chat.py:143-211 | on the lowercased query, a software-architecture phrase wins, then an AI-architecture phrase, then the first keyword group in the fixed order; with no match the type is software architecture |
| DiagramChat.DetectIgnoresCase | app/core/diagram_chat.py:144 | a query and its lowercase form get the same type |
| DiagramChat.MessageQueueIsSoftware | app/core/diagram_chat.py:172-197 | "message queue" contains the sequence keyword "message" and is still classified as software architecture, because that group is tried first |
| DiagramChat.DictGet | app/core/diagram_chat.py:349 | `.get` succeeds exactly on a dict and gives the key's value or the default |
| DiagramChat.NormaliseId | app/core/diagram_chat.py:349 | `.replace("-", "_")` succeeds exactly on a string; the result has the same length, no '-', and every other character kept |
| DiagramChat.LowerOf | app/core/diagram_chat.py:362 | `.lower()` succeeds exactly on a string and gives its lowercase form |
| DiagramChat.Iterate | app/core/diagram_chat.py:348 | iterating fails exactly on a value that is not a list, string or dict; a list gives its items |
| DiagramChat.Lines | app/core/diagram_chat.py:359-409 | the text of one section loop, or the error of the first item whose line raises (see `LinesSucceeds`, `LinesValue`, `LinesFirstFailure` and `LinesStopAtFailure`) |
| DiagramChat.LinesSucceeds | app/core/diagram_chat.py:359-409 | a section loop completes exactly when every item's line can be built |
| DiagramChat.LinesValue | app/core/diagram_chat.py:359-409 | a completed section is the items' lines, one per item, in item order |
| DiagramChat.LinesFirstFailure | app/core/diagram_chat.py:474-484 | a failed section carries the error of the first item whose line fails, every earlier item having succeeded |
| DiagramChat.LinesStopAtFailure | app/core/diagram_chat.py:474 | once an item has raised, later items change nothing |
| DiagramChat.AppendLines | app/core/diagram_chat.py:359-409 | the loop that appends line by line gives the section text, or the first error |
| DiagramChat.MemberLine | app/core/diagram_chat.py:353-355 | a member id line exists exactly for a string id, and is the normalised id indented by eight spaces |
| DiagramChat.ClusterText | app/core/diagram_chat.py:348-356 | a cluster succeeds exactly when it is a dict with a string id and iterable members whose lines all succeed; its text is the subgraph header, the member lines and `end` |
| DiagramChat.ShapeOf | app/core/diagram_chat.py:370-409 | the node is drawn as a cylinder, in braces or as a subroutine exactly when its type is in the respective list, and as a rectangle otherwise |
| DiagramChat.WithTechnology | app/core/diagram_chat.py:363-367 | without a technology the label is kept; with one the label must be a string, and the result ends with "(technology)" and is the label itself or the label followed by it |
| DiagramChat.TechnologyAppendedOnce | app/core/diagram_chat.py:366-367 | applying the technology to an already-tagged label changes nothing |
| DiagramChat.NodeLine | app/core/diagram_chat.py:359-409 | a node line exists exactly when the node is a dict with string id and type and a usable label; it is the shaped line of the normalised id and tagged label |
| DiagramChat.WithProtocol | app/core/diagram_chat.py:415-424 | computing the connection label fails exactly when there is a protocol and the label is not a string; without a protocol it is the label; with one, a non-empty label ends with the parenthesised protocol, which is appended after a space unless already there, and an empty label becomes the protocol |
| DiagramChat.ProtocolAppendedOnce | app/core/diagram_chat.py:419-424 | for a non-empty label, applying the protocol to an already-tagged label changes nothing |
| DiagramChat.EdgeLine | app/core/diagram_chat.py:412-432 | an edge line exists exactly when the connection is a dict with string ends and type and a usable label; it is a dotted arrow for the flow-like types and a solid arrow otherwise, never labelled |
| DiagramChat.StyleLine | app/core/diagram_chat.py:436-440 | a style line exists exactly when the style is a dict; fill and stroke default to white and black |
| DiagramChat.StylesText | app/core/diagram_chat.py:435-440 | without a `styles` key nothing is added; a non-dict value raises; otherwise it is the style lines in order |
| DiagramChat.DefaultStyleLine | app/core/diagram_chat.py:444-468 | a default style line is added exactly for a node that is not styled and whose type has default colours, with those colours |
| DiagramChat.HyphenatedStyledNodeKeepsDefault | app/core/diagram_chat.py:445-449 | a node whose id holds '-' and is itself a `styles` key still gets a default style line, because the normalised id is looked up among the unnormalised keys |
| DiagramChat.Fallback | app/core/diagram_chat.py:478-484 | the fallback diagram starts with the flowchart header and ends with the error-node style |
| DiagramChat.Format | app/core/diagram_chat.py:345 | a value placed in an f-string: a string appears as itself |
| DiagramChat.TitleLine | app/core/diagram_chat.py:345 | the title node, labelled with the `title` value or "Architecture Diagram" |
| DiagramChat.ArchitectureSections | app/core/diagram_chat.py:347-469 | the clusters, connections, groups and styles in turn, or the first error among them (see `ArchitectureDiagram`) |
| DiagramChat.ArchitectureDiagram | app/core/diagram_chat.py:333-488 | a description that is not an AI or software architecture gives the not-supported diagram; otherwise the text opens with the header and title, then holds the sections and closes with the title style, or is the fallback diagram carrying the first error |
| DiagramChat.EdgesOnePerConnection | app/core/diagram_chat.py:412-432 | in a completed edge section every connection has its line and the section is those lines in order |
| DiagramChat.AppendClusters | app/core/diagram_chat.py:348-356 | the nested cluster loop gives the cluster section or its first error |
| DiagramChat.AppendSections | app/core/diagram_chat.py:348-468 | appending section by section gives the sections' text or the first error |
| DiagramChat.ConvertArchitectureToDiagram | app/core/diagram_chat.py:333-492 | the conversion as written gives exactly the diagram of `ConvertedDiagram` for whatever the reply parsed to |
| DiagramChat.UnexpectedError | app/core/diagram_chat.py:489-492 | the outer handler's diagram opens with the error node's header and closes its label |
| DiagramChat.ConvertedDiagram | app/core/diagram_chat.py:338-492 | a parsed object is converted as stated for `ArchitectureDiagram`; any other JSON value lacks `get`, so the outer handler answers with that `AttributeError` |
| DiagramChat.ListReplyReachesOuterHandler | app/core/diagram_chat.py:338-492 | a reply that parses to the list `[1]` gives the outer handler's error diagram for the `AttributeError` of a `list` with no `get` |
| DiagramChat.Transcript | app/core/diagram_chat.py:528 | the messages sent to the model are the whole session's roles and contents, in order |
| DiagramChat.DiagramChatbot.constructor | app/core/diagram_chat.py:29-33 | the chatbot starts with no session |
| DiagramChat.DiagramChatbot.ProcessMessage | app/core/diagram_chat.py:506-539 | a diagram request touches no session and returns the diagram or its error; otherwise the session is found or created, the user message appended and kept even on failure, the whole session sent to the model, and on success the answer appended and the session returned; a failure is re-raised wrapped |
| Chunking.Paragraphs | app/utils/chunking.py:83 | at most one paragraph per piece, each stripped and non-empty |
| Chunking.ParagraphsConcat | app/utils/chunking.py:83 | paragraphs keep the order of the pieces: those of two runs of pieces are those of the first followed by those of the second |
| Chunking.ParagraphsOne | app/utils/chunking.py:83 | one piece gives its stripped text, or nothing when it is blank |
| Chunking.TextChunks | app/utils/chunking.py:77-96 | an unreadable file gives no chunks; otherwise one text chunk per kept paragraph of the blank-line split, numbered from 0, with the path as source and trimmed content |
| Chunking.NumberParagraphs | app/utils/chunking.py:84-92 | the enumerate loop numbers the paragraphs from 0 in order |
| Chunking.ProcessText | app/utils/chunking.py:77-96 | the text reader gives exactly the text chunks above |
| Chunking.PageChunks | app/utils/chunking.py:35-48 | at most one chunk per block, each a PDF chunk of that page with the path as source |
| Chunking.PdfScan | app/utils/chunking.py:33-48 | pages are numbered from 1 and every chunk's page lies between 1 and the page count |
| Chunking.PdfScanStops | app/utils/chunking.py:33-51 | once getting a page's blocks has raised, later pages add nothing |
| Chunking.PdfScanAppend | app/utils/chunking.py:33-48 | without a raising page, each page adds its own chunks after those of the earlier pages |
| Chunking.PdfChunks | app/utils/chunking.py:28-52 | a PDF that cannot be opened gives no chunks; otherwise the chunks gathered before the first raising page are kept |
| Chunking.BlockChunks | app/utils/chunking.py:35-48 | the block loop keeps exactly the non-blank blocks of the page, in order |
| Chunking.ProcessPdf | app/utils/chunking.py:28-52 | the PDF reader gives exactly the PDF chunks above |
| Chunking.NullRowIsEmpty | app/utils/chunking.py:61-62 | a row whose cells are all null has empty content, so gives no chunk |
| Chunking.Present | app/utils/chunking.py:61 | the non-null cells of a row, in order, at most one per cell |
| Chunking.RowContent | app/utils/chunking.py:61 | a row's content: its non-null cells joined by single spaces |
| Chunking.RowChunksStep | app/utils/chunking.py:60-71 | one more row adds exactly its Excel chunk when its content is not blank, and nothing otherwise |
| Chunking.RowChunks | app/utils/chunking.py:60-71 | at most one chunk per row, each an Excel chunk of that sheet with the path as source |
| Chunking.RowCandidates | app/utils/chunking.py:61-71 | one candidate per row: its joined non-null cells, the sheet, the path and the row label |
| Chunking.RowChunksFromRows | app/utils/chunking.py:60-71 | every row chunk is the content and label of one of the rows |
| Chunking.SheetsChunks | app/utils/chunking.py:59-71 | the chunks of all sheets, sheet by sheet, all with the path as source |
| Chunking.ExcelChunks | app/utils/chunking.py:54-75 | a workbook that cannot be read gives no chunks |
| Chunking.SheetRowChunks | app/utils/chunking.py:60-71 | the row loop keeps exactly the rows with non-blank content, in order |
| Chunking.ProcessExcel | app/utils/chunking.py:54-75 | the workbook reader gives exactly the Excel chunks above |
| Chunking.Extension | app/utils/chunking.py:12 | the extension is the text after the last '.', lowercased, holding no '.' and no capital |
| Chunking.DocumentChunks | app/utils/chunking.py:10-26 | pdf, xlsx/xls and txt go to their reader, any other extension gives no chunks; every chunk has the path as source |
| Chunking.ChunksHaveText | app/utils/chunking.py:28-96 | whatever the format, every chunk's content is not blank |
| Chunking.ProcessDocument | app/utils/chunking.py:10-26 | the dispatch gives exactly the document's chunks above |
| Chunking.UpperCaseExtension | app/utils/chunking.py:12 | the extension is matched case-insensitively: "REPORT.PDF" is read as a PDF |
| DocumentProcessor.Basename | app/service/document_processor.py:210 | the base name holds no '/', ends the path, and is the path itself when it holds none |
| DocumentProcessor.PathJoinSpec | app/service/document_processor.py:127 | the joined path ends with the name; an absolute name replaces the directory; otherwise the directory comes first and exactly one '/' is added when it lacks one |
| DocumentProcessor.PayloadOf | app/service/document_processor.py:204-212 | the payload's content is the first 5000 characters of the record's content; source is the full path and filename its base name; page and type are the record's |
| DocumentProcessor.ContentsStored | app/service/document_processor.py:200-214 | whatever identifiers are issued, the points carry each record's vector and payload, one point per record, in order |
| DocumentProcessor.Accepted | app/service/document_processor.py:196-228 | the upserts made are those before the first failing one, all successful; the failing one ends the loop |
| DocumentProcessor.AcceptedAt | app/service/document_processor.py:196-228 | that count is exactly the position of the first failing upsert |
| DocumentProcessor.BatchRecords | app/service/document_processor.py:159-167 | the records exist exactly when there are no more embeddings than chunks; record i is embedding i with chunk i's content, the path, and the chunk's page and type |
| DocumentProcessor.EncodeBatch | app/service/document_processor.py:158-190 | one batch embedded and turned into records, or the first exception (see `EncodeBatchSpec`) |
| DocumentProcessor.EncodeRuns | app/service/document_processor.py:154-167 | `embeddings_data` after the given batches in turn, or the first exception (see `EncodeRunsStep` and `EncodeRunsSpec`) |
| DocumentProcessor.EncodeBatchSpec | app/service/document_processor.py:158-190 | with a model that returns one vector per text, a batch gives records exactly when encoding succeeds, and then one record per chunk, in order |
| DocumentProcessor.EncodeRunsStep | app/service/document_processor.py:154-167 | each batch's records follow those of the batches before it |
| DocumentProcessor.EncodeRunsSpec | app/service/document_processor.py:154-167 | the batch loop fails exactly when some batch fails to encode; otherwise there is one record per chunk, in chunk order |
| DocumentProcessor.RecordsPerChunk | app/service/document_processor.py:150-167 | a file's records are one per chunk, in chunk order, with the path as source and the chunk's page and type |
| DocumentProcessor.Run | app/service/document_processor.py:169 | each step stores at most 32 records |
| DocumentProcessor.ShortFinalBatchRestores | app/service/document_processor.py:169 | with more than 32 records and a short last batch, the last step stores the 32 newest records, which reach back into the batch the step before already stored |
| DocumentProcessor.FortyRecords | app/service/document_processor.py:169 | with 40 records the first step stores records 0-31 and the second records 8-39, so records 8-31 are stored twice |
| DocumentProcessor.CurrentBatch | app/service/document_processor.py:154-155 | the intended step stores at most 32 records, those of its own batch |
| DocumentProcessor.CurrentBatchesStoreOnce | app/service/document_processor.py:154-169 | storing the current batch at each step stores every record exactly once, in order |
| DocumentProcessor.RunIsCurrentBatchWhenFull | app/service/document_processor.py:169 | the written step and the intended one agree on the first batch and on every full batch |
| DocumentProcessor.RunStable | app/service/document_processor.py:159-169 | records added later leave what an earlier step stored unchanged |
| DocumentProcessor.RunNewest | app/service/document_processor.py:169 | a step stores the newest 32 records present at that point |
| DocumentProcessor.StoredBatch | app/service/document_processor.py:154-169 | one pass of the batch loop keeps earlier upserts, and its own upsert carries what that step stores |
| DocumentProcessor.StoresRuns | app/service/document_processor.py:159-169 | upsert call `k` carries what storing the 32 newest records after batch `k` writes (see `StoresRunsStable`, `StoresRunsExtend` and `ShortFinalBatchRestores`) |
| DocumentProcessor.StoresRunsStable | app/service/document_processor.py:159-169 | records added after the finished steps leave their upserts matching |
| DocumentProcessor.StoresRunsExtend | app/service/document_processor.py:169 | an upsert carrying the next step's records extends the matching upserts by one |
| DocumentProcessor.EmbeddingCache.constructor | app/service/document_processor.py:17-21 | a new cache holds no entry |
| DocumentProcessor.EmbeddingCache.Exists | app/service/document_processor.py:23-32 | hashing a missing file raises; otherwise the answer is whether an entry exists for the file's current bytes |
| DocumentProcessor.EmbeddingCache.Load | app/service/document_processor.py:41-45 | loading succeeds exactly when the file exists and its bytes have an entry, and gives that entry |
| DocumentProcessor.EmbeddingCache.Save | app/service/document_processor.py:34-39 | saving succeeds exactly when the file exists; the entry for its bytes becomes the data, replacing an older one, and every other entry stays; afterwards the file is found in the cache and loads that data |
| DocumentProcessor.SaveAffectsOnlyItsContents | app/service/document_processor.py:23-45 | files with identical bytes share one entry; a file with different bytes keeps its own entry, or its absence |
| DocumentProcessor.StoredStaysFresh | app/service/document_processor.py:202 | appending upsert batches whose identifiers are newly issued keeps every stored identifier distinct |
| DocumentProcessor.DocumentProcessor.constructor | app/service/document_processor.py:47-70 | a new processor has made no upsert and issued no identifier |
| DocumentProcessor.DocumentProcessor.MakePoints | app/service/document_processor.py:198-214 | one point per record with newly issued identifiers, in order |
| DocumentProcessor.DocumentProcessor.UpsertTurn | app/service/document_processor.py:196-224 | one turn of the loop sends exactly upsert batch `k` (the points for records `k*50` onwards, numbered from where the turn starts) and records it exactly when the upsert succeeds |
| DocumentProcessor.DocumentProcessor.UpsertAll | app/service/document_processor.py:196-224 | the batches are sent in order; those before the `k`-th all succeeded and are recorded; the loop ends with every batch sent or with the error of batch `k`, and the identifier counter advances past every point built |
| DocumentProcessor.DocumentProcessor.StoreEmbeddings | app/service/document_processor.py:193-228 | the points are cut into consecutive batches of at most 50 and upserted in order until one fails; the call succeeds exactly when all are accepted and otherwise raises the first failure's error; identifiers stay distinct |
| DocumentProcessor.DocumentProcessor.StoreNewest | app/service/document_processor.py:169 | the newest 32 records go out in a single upsert carrying their vectors and payloads; a failure adds nothing |
| DocumentProcessor.DocumentProcessor.EmbedBatch | app/service/document_processor.py:155-169 | a pass embeds the batch, appends one record per chunk and upserts the newest 32 records; a failure adds no upsert |
| DocumentProcessor.DocumentProcessor.EmbedAndStore | app/service/document_processor.py:153-169 | on success the result is all the file's records and there is one upsert per 32-chunk batch, each carrying the newest 32 records at its step; earlier upserts are kept in every case |
| DocumentProcessor.DocumentProcessor.ProcessNewFile | app/service/document_processor.py:148-175 | on success the records are saved to the cache under the file's bytes and the upserts are those of the batch loop; a failure saves nothing |
| DocumentProcessor.DocumentProcessor.ProcessFile | app/service/document_processor.py:131-137 | `FileOutcome` from the cache and counter before the call: a missing file raises with nothing stored; a file whose bytes are cached has its cached records stored again under new identifiers with this path as source, as many upserts as go through, and the cache is unchanged; a new file that goes through has one upsert per chunk batch carrying that step's records and its records saved under its bytes; a failure never changes the cache; earlier upserts stay |
| DocumentProcessor.DocumentProcessor.ProcessListedFile | app/service/document_processor.py:131-143 | the exception of one file is caught, so its outcome is exactly `FileOutcome`, as for `ProcessFile` |
| DocumentProcessor.DocumentProcessor.ProcessDirectory | app/service/document_processor.py:114-146 | a missing directory changes nothing; otherwise every listed name is tried once, in order, at its path joined to the directory, and the upsert log becomes the old one followed by each file's upserts in turn; each file's upserts, outcome and cache change are its `FileOutcome` from the cache and counter the previous file left, whatever the previous file's outcome, so a failing file does not stop the ones after it |
| KnowledgeBase.SanitizeChar | app/service/knowledgebase_service.py:126 | letters and digits are kept; every other character becomes '_' |
| KnowledgeBase.Sanitize | app/service/knowledgebase_service.py:123-130 | the name is lowered, every character that is not a letter or digit replaced by '_', and cut to 50 characters; only lowercase letters, digits and '_' remain |
| KnowledgeBase.SanitizeIdempotent | app/service/knowledgebase_service.py:123-130 | sanitising a sanitised name changes nothing |
| KnowledgeBase.CollectionName | app/service/knowledgebase_service.py:45 | the collection name starts with "kb_", the user id and '_', and is 4 + len(user id) + min(len(title), 50) long |
| KnowledgeBase.CollectionNameTail | app/service/knowledgebase_service.py:45 | after that prefix comes exactly the sanitised title |
| KnowledgeBase.TitlesCollide | app/service/knowledgebase_service.py:123-130 | two titles differing only in case and punctuation ("Q 3", "q-3") name the same collection, so a request for the second targets the first one's collection and, as written, replaces it (see Findings) |
| KnowledgeBase.PayloadOf | app/service/knowledgebase_service.py:153-160 | the payload carries the file's base name, the first 5000 characters of the content, and the chunk's page and type |
| KnowledgeBase.BatchValues | app/service/knowledgebase_service.py:145-161 | the vectors and payloads of one batch, or the exception (see `BatchValuesSpec`) |
| KnowledgeBase.Embedded | app/service/knowledgebase_service.py:140-169 | everything written for the batches in turn, or the first exception (see `EmbeddedStep` and `EmbeddedSpec`) |
| KnowledgeBase.BatchValuesSpec | app/service/knowledgebase_service.py:145-161 | a failing encoding fails the batch; otherwise the batch succeeds exactly when there are no more embeddings than chunks, and value i is embedding i with chunk i's payload |
| KnowledgeBase.EmbeddedStep | app/service/knowledgebase_service.py:140-169 | each batch's points follow those of the batches before it |
| KnowledgeBase.EmbeddedSpec | app/service/knowledgebase_service.py:140-169 | with a model that returns one vector per text, what is written is one payload per chunk, in chunk order |
| KnowledgeBase.PointsPerChunk | app/service/knowledgebase_service.py:136-169 | a stored document gives one point per chunk, in order, each with the file's base name and the chunk's truncated content, page and type |
| KnowledgeBase.KbStored | app/service/knowledgebase_service.py:149-151 | one point per value, numbered from the counter on (see `KbStoredConcat`) |
| KnowledgeBase.KbStoredConcat | app/service/knowledgebase_service.py:149-151 | identifiers keep counting across batches |
| KnowledgeBase.KeepsOthers | app/service/knowledgebase_service.py:164-167 | appending to one collection leaves every other collection as it was |
| KnowledgeBase.VectorIndex.constructor | app/service/qdrant_service.py:1-15 | a new index has no collection and has accepted no upsert |
| KnowledgeBase.VectorIndex.CreateCollection | app/service/knowledgebase_service.py:55-70 | creation succeeds exactly when the name is new and the call succeeds, and then adds an empty collection; otherwise nothing changes |
| KnowledgeBase.VectorIndex.DeleteCollection | app/service/knowledgebase_service.py:113 | a successful deletion removes the collection; a failed one changes nothing |
| KnowledgeBase.VectorIndex.Upsert | app/service/knowledgebase_service.py:164-167 | an upsert succeeds exactly when the collection exists and the call succeeds, and then appends the points to that collection alone; a failure changes nothing |
| KnowledgeBase.Surfaced | app/service/knowledgebase_service.py:119-121 | an `HTTPException` is raised as it is; anything else becomes a 500 whose detail is "Failed to create knowledge base: " and the error |
| KnowledgeBase.SameExceptTrans | app/service/knowledgebase_service.py:47-121 | steps that each touch only one collection together touch only that collection |
| KnowledgeBase.KnowledgeBaseService.constructor | app/service/knowledgebase_service.py:21-39 | a new service has issued no identifier and uses the given index |
| KnowledgeBase.KnowledgeBaseService.StoreBatch | app/service/knowledgebase_service.py:141-169 | a pass embeds the batch, builds one point per embedding with new identifiers and appends them to the collection in one upsert; a failure changes no collection; with a working model and index it succeeds |
| KnowledgeBase.KnowledgeBaseService.StoreNext | app/service/knowledgebase_service.py:140-169 | pass k covers chunks k*32 up to the next 32 and grows the document's points by this batch |
| KnowledgeBase.KnowledgeBaseService.StoreChunks | app/service/knowledgebase_service.py:139-173 | on success the result is the number of chunks, there is one upsert per batch, and the collection grows by the document's points in order; only that collection changes; with a working model and index it succeeds |
| KnowledgeBase.KnowledgeBaseService.ProcessDocument | app/service/knowledgebase_service.py:132-177 | the document's chunks are stored into the collection, batch by batch, and their number returned; only that collection changes |
| KnowledgeBase.KnowledgeBaseService.TryCreate | app/service/knowledgebase_service.py:47-106 | a failed listing raises; an existing name raises 409; otherwise the collection is created and filled, the response is completed with the chunk count, and only that collection changes |
| KnowledgeBase.KnowledgeBaseService.Cleanup | app/service/knowledgebase_service.py:110-116 | when the listing and the deletion succeed the collection is gone; otherwise nothing changes |
| KnowledgeBase.KnowledgeBaseService.CreateOnce | app/service/knowledgebase_service.py:41-121 | one call creates the knowledge base from the document when the name is new and all goes well; an existing name gives 409, other failures 500; any failure followed by a working cleanup leaves no collection of that name, even one that existed before the call |
| KnowledgeBase.KnowledgeBaseService.CreateKnowledgeBase | app/service/knowledgebase_service.py:41-121 | under the three-attempt retry a success holds exactly the document's points; a final failure is a `RetryError` carrying 409 or 500; when the title's collection already exists and the first cleanup and the second attempt succeed, the request succeeds and replaces that knowledge base |
| KnowledgeBase.KnowledgeBaseService.CreateOnceChecked | app/service/knowledgebase_service.py:108-121 | with the cleanup limited to a collection this call created, a 409 leaves the existing knowledge base as it was |
| KnowledgeBase.KnowledgeBaseService.CreateKnowledgeBaseChecked | app/service/knowledgebase_service.py:41-121 | a taken title is answered with 409 at once, leaving its knowledge base untouched; a success creates a new collection holding exactly the document's points; other failures end as a 500 `RetryError` |
| Retrieval.ConditionFor | app/utils/search.py:179-192 | a non-dict value gives an equality on itself; a dict with "range" gives a range on its bounds (even with "match"), and raises `TypeError` exactly when those bounds are not a mapping; a dict with only "match" an equality on that value; any other dict nothing; the key is always the entry's |
| Retrieval.FilterOf | app/utils/search.py:179-192 | the conditions of a filter map, one per kept entry, in key order, or the first entry's error (see `FilterOfConcat`, `FilterOfRaises`, `FilterOfFirstError`, `FilterOfLength` and `FilterOfKeys`) |
| Retrieval.FilterOfStep | app/utils/search.py:179-192 | the map without its last entry is handled first, and its error wins over the last entry's |
| Retrieval.FilterOfConcat | app/utils/search.py:179-192 | conditions are emitted in the map's key order: those of two consecutive parts are those of the first followed by those of the second, and an error in the first part wins over one in the second |
| Retrieval.FilterOfRaises | app/utils/search.py:179-192 | the build raises exactly when some entry's condition raises |
| Retrieval.FilterOfFirstError | app/utils/search.py:179-192 | the error raised is that of the first entry whose condition raises |
| Retrieval.NonMappingRangeRaises | app/utils/search.py:183 | `{"price": {"range": 5}}` makes the build raise |
| Retrieval.FilterOfLength | app/utils/search.py:179-192 | at most one condition per entry |
| Retrieval.FilterOfKeys | app/utils/search.py:179-192 | when no entry raises or is dropped there is exactly one condition per entry, in key order |
| Retrieval.BuildFilter | app/utils/search.py:176-194 | the loop builds exactly the `must` list of those conditions, or stops with the error of the first entry that raises |
| Retrieval.ResultOf | app/utils/search.py:196-206 | the result built from one hit's payload with the defaults "", {} and "unknown" (see `ResultOfSpec`) |
| Retrieval.ResultOfSpec | app/utils/search.py:196-206 | each field is the payload's value under its name when present, and otherwise "", {} or "unknown"; the score is the hit's |
| Retrieval.EmptyPayloadDefaults | app/utils/search.py:200-203 | an empty payload gets every default |
| Retrieval.ProcessResults | app/utils/search.py:196-206 | one result per hit, in the index's order |
| Retrieval.ProcessResultsConcat | app/utils/search.py:198-206 | results of consecutive hit lists concatenate |
| Retrieval.ResultsJson | app/utils/search.py:157-165 | the serialisable form is a list with one dict per result |
| Retrieval.ResultFromJson | app/utils/search.py:106 | `SearchResult(**item)` succeeds only on a dict |
| Retrieval.FieldLookups | app/utils/search.py:157-165 | in a serialised result each of the four keys finds its own field |
| Retrieval.ResultRoundTrip | app/utils/search.py:155-165 | a serialised result is rebuilt as itself |
| Retrieval.FromFields | app/utils/search.py:106 | a four-key dict holding the four fields rebuilds that result |
| Retrieval.Serialize | app/utils/search.py:155-168 | the text a result list is cached as: `json.dumps` of the list of result dicts (see `SerializeRoundTrip`) |
| Retrieval.Deserialize | app/utils/search.py:102-106 | the results rebuilt from a cached text by `json.loads` and `SearchResult(**item)`; the empty text fails (see `SerializeRoundTrip` and `DeserializeEmpty`) |
| Retrieval.SerializeRoundTrip | app/utils/search.py:155-168 | loading what was dumped gives back the same results, field by field and in order |
| Retrieval.ItemsRoundTrip | app/utils/search.py:106 | the dicts of a result list rebuild that list |
| Retrieval.DeserializeEmpty | app/utils/search.py:105 | the empty string never deserialises |
| Retrieval.RequestFor | app/utils/search.py:136-146 | the request keeps the caller's collection, vector, limit and threshold, uses hnsw_ef 128 without exact search and with payloads, and has a filter, built from the conditions, exactly when conditions are given and non-empty; when building that filter raises, no request is made and its error is the result |
| Retrieval.VectorJson | app/utils/search.py:97 | the embedding is sent as a list of the same length |
| Search.KeyData | app/utils/search.py:75-79 | `cache_data`: the query, collection, limit, threshold and filter under their five names, in that order (see `KeyDataDistinct`) |
| Search.KeyDataDistinct | app/utils/search.py:75-79 | `cache_data` has exactly the five keys query, collection, limit, score_threshold and filter_conditions, pairwise different |
| Search.SortValuesAt | app/utils/search.py:80 | `sort_keys` sorts each member's value in place |
| Search.SortedDictsAgree | app/utils/search.py:80 | two dicts with the same keys in the same order serialise to the same sorted text exactly when their values do, position by position |
| Search.FiveValuesAgree | app/utils/search.py:75-80 | for five-member dicts that is agreement of the five values |
| Search.KeyDigestInjective | app/utils/search.py:72-81 | for a filter that is null or a string, as `search` passes it, equal cache keys come exactly from equal arguments |
| Search.FilterOrderChangesKey | app/utils/search.py:124 | the filter is serialised without sorting before the key is built, so two different filter dicts, including the same dict in another key order, give different keys |
| Search.SameFilterTwoKeys | app/utils/search.py:124 | `{"page": 1, "type": "pdf"}` and `{"type": "pdf", "page": 1}` hold the same entries and get different keys |
| Search.CanonicalKey | app/utils/search.py:72-81 | the corrected cache key, with the raw filter dict inside `cache_data` (see `CanonicalKeyExact` and `CanonicalKeyOrderFree`) |
| Search.CanonicalKeyExact | app/utils/search.py:72-81 | with the raw filter inside `cache_data`, two requests share a key exactly when query, collection, limit, threshold and the sorted filter text agree |
| Search.CanonicalKeyOrderFree | app/utils/search.py:80 | with that key the same filter gives the same key whatever its insertion order |
| Search.LookupNeverHits | app/utils/search.py:127-131 | the lookup with the key and "" fails whatever the result cache holds, and changes nothing |
| Search.QdrantSearch.constructor | app/utils/search.py:31-52 | all caches start empty |
| Search.QdrantSearch.GenerateCacheKey | app/utils/search.py:72-81 | the key is the digest of the sorted `cache_data`, through its cache; no other cache changes |
| Search.QdrantSearch.GetEmbedding | app/utils/search.py:83-100 | the vector is the model's for the text, or its error re-raised, through the embedding cache; no other cache changes |
| Search.QdrantSearch.CacheSearchResults | app/utils/search.py:102-106 | the result is the text deserialised, through the result cache; a text that does not deserialise raises and caches nothing |
| Search.QdrantSearch.Fetch | app/utils/search.py:133-153 | the query's embedding, the request (with a filter only when conditions are given) and the hits mapped to results, or the first error, which may be the filter build's, raised before the index is queried |
| Search.QdrantSearch.StoreResults | app/utils/search.py:155-168 | after a store the result cache holds exactly one entry, the one just stored |
| Search.QdrantSearch.Search | app/utils/search.py:108-174 | whatever the caches hold the result is computed afresh; the key cache is consulted only when caching is on; after a successful cached search the result cache holds only that search's entry; a failure leaves it unchanged |
| Search.QdrantSearch.SearchChecked | app/utils/search.py:108-174 | with a result cache keyed by the canonical key, a hit returns the cached list without calling the model or the index, a miss computes, returns and caches the result, and other entries are kept |
| SearchLater.Live | app/utils/search_later.py:92-96 | a Redis read finds a value exactly when the key is stored and has not expired, and then it is the stored value |
| SearchLater.ResultKey | app/utils/search_later.py:76-85 | the `lru_cache` around the key function hashes its arguments, so the key fails exactly when a filter dict is given |
| SearchLater.EmbeddingStep | app/utils/search_later.py:87-117 | `_get_embedding` as a function of the Redis state before it: result and new state (see `EmbeddingHitSkipsModel` and `EmbeddingStored`) |
| SearchLater.FetchStep | app/utils/search_later.py:145-165 | embedding the query, building the filter, querying the index and mapping the hits, with the new Redis state (see `UncachedAgrees`) |
| SearchLater.CachedStep | app/utils/search_later.py:138-184 | the cached path under one result key: a stored non-empty list is deserialised, otherwise the results are fetched and stored for 3600 s (see `ResultHitSkipsIndex`, `ResultStored` and `StoreFailureFailsSearch`) |
| SearchLater.SearchStep | app/utils/search_later.py:119-188 | `search` as written, as a function of the Redis state before it (see `DictFilterRaises` and `UncachedAgrees`) |
| SearchLater.EmbeddingHitSkipsModel | app/utils/search_later.py:89-97 | a stored embedding is returned parsed from Redis: the model is not consulted and Redis is not written |
| SearchLater.EmbeddingStored | app/utils/search_later.py:99-114 | a computed embedding is returned and stored for 86400 s: until then a read of the same text finds a value that parses back to it, afterwards nothing, and no other key changes |
| SearchLater.ResultHitSkipsIndex | app/utils/search_later.py:138-143 | a stored non-empty result list is returned deserialised, without the model or the index, and Redis is not written |
| SearchLater.ResultStored | app/utils/search_later.py:145-184 | on a miss the fetched results are returned and stored for 3600 s, and a search with the same key within that hour returns the same list whatever the model and index now give |
| SearchLater.StoreFailureFailsSearch | app/utils/search_later.py:177-188 | a failing Redis write makes the search raise although the results were computed |
| SearchLater.UncachedAgrees | app/utils/search_later.py:145-165 | with the cache off and no stored embedding the search computes what the in-process search computes |
| SearchLater.DictFilterRaises | app/utils/search_later.py:129-136 | with the cache on, any dict filter, even `{}`, makes the search raise before Redis, the model or the index is reached |
| SearchLater.CheckedFilterShared | app/utils/search_later.py:76-85 | with the filter placed in the key JSON a filtered search is cached, and the same filter in another key order finds it within the hour |
| SearchLater.RedisStore.constructor | app/utils/search_later.py:39 | the store starts empty |
| SearchLater.RedisStore.Get | app/utils/search_later.py:92-95 | a read returns the live value of the key, or the connection's error |
| SearchLater.RedisStore.Set | app/utils/search_later.py:108-113 | a write stores the value with expiry now + ttl and changes no other key; a failed write changes nothing |
| SearchLater.QdrantSearch.constructor | app/utils/search_later.py:34-56 | keeps the model and the Redis client it is given |
| SearchLater.QdrantSearch.GetEmbedding | app/utils/search_later.py:87-117 | result and new Redis state are those of the embedding step over the old state |
| SearchLater.QdrantSearch.Fetch | app/utils/search_later.py:145-165 | result and new Redis state are those of embedding, building the filter (only for non-empty conditions, its error raised before the index is queried), querying the index and mapping the hits |
| SearchLater.QdrantSearch.SearchCached | app/utils/search_later.py:138-184 | result and new Redis state are those of the cached path: hit, or fetch then store |
| SearchLater.QdrantSearch.Search | app/utils/search_later.py:119-188 | result and new Redis state are those of `search` as written, including the raise on a dict filter |
| SearchLater.QdrantSearch.SearchChecked | app/utils/search_later.py:119-188 | result and new Redis state are those of the corrected search, whose key carries the filter dict |
| Lru.Empty | app/utils/search.py:72-106 | a fresh `lru_cache` is valid and holds nothing |
| Lru.Keys | app/utils/search.py:72 | the cached arguments, one per entry, in recency order |
| Lru.Lookup | app/utils/search.py:72 | a cached value is found exactly when the argument is among the cached ones, and it is the value stored with it |
| Lru.Remove | app/utils/search.py:72 | removing an argument keeps every other entry and drops every entry for that argument |
| Lru.Clear | app/utils/search.py:167 | `cache_clear()` leaves a valid cache with no entries and the same bound |
| Lru.RemoveDistinct | app/utils/search.py:72 | removal keeps the cached arguments pairwise different |
| Lru.NotCached | app/utils/search.py:72 | an argument that is not found has no entry at all |
| Lru.Touch | app/utils/search.py:72 | a hit moves its argument's entry to the most recent position, keeping the others in order (used by `Call`; see `CallCaches` and `CallValid`) |
| Lru.Insert | app/utils/search.py:72 | a miss appends the new entry, first evicting the least recently used one when `maxsize` entries are held; with `maxsize` 0 nothing is cached (see `CallValid`, `CallKeeps` and `CallEvictsOldest`) |
| Lru.Call | app/utils/search.py:72-106 | one call of an `lru_cache`-wrapped function: a hit returns the cached value and touches it, a miss calls the function and caches a successful result; its properties are `CallValid`, `CallTransparent`, `CallHitIgnoresCompute`, `CallFailureUnchanged`, `CallCaches`, `CallFinds` and `CallKeeps` |
| Lru.CallValid | app/utils/search.py:72-106 | a call keeps the cache valid (distinct arguments, at most `maxsize` entries) and its bound |
| Lru.CallTransparent | app/utils/search.py:72-106 | on a cache that agrees with the wrapped function, a call returns exactly what the function returns and the cache still agrees with it |
| Lru.CallHitIgnoresCompute | app/utils/search.py:72-106 | a hit returns the cached value without consulting the wrapped function |
| Lru.CallFailureUnchanged | app/utils/search.py:72-106 | a call that raises was a miss whose function raised, and it caches nothing |
| Lru.CallCaches | app/utils/search.py:72-106 | a successful call leaves its argument and result as the most recently used entry |
| Lru.LookupMember | app/utils/search.py:72 | in a valid cache, a stored entry is what a lookup of its argument finds |
| Lru.CallFinds | app/utils/search.py:72-106 | after a successful call a lookup of the same argument finds the result |
| Lru.CallKeeps | app/utils/search.py:72-106 | while the cache is below its bound, a call evicts no entry |
| Lru.CallEvictsOldest | app/utils/search.py:72-106 | a miss on a full cache drops the least recently used entry and appends the new one, and the evicted argument is no longer found |
| Json.Keys | app/utils/search.py:75-80 | the keys of a dict, one per member, in insertion order |
| Json.GetSpec | app/utils/search.py:196-206 | `dict.get` finds a value exactly when the key is present, and the value is stored under it |
| Json.InsertMemberSorted | app/utils/search.py:80 | inserting a new key into a strictly sorted member list keeps it strictly sorted and adds exactly that member |
| Json.SortMembers | app/utils/search.py:80 | the members of one dict ordered by key, by insertion (see `SortMembersSpec`) |
| Json.SortKeys | app/utils/search.py:80 | `sort_keys=True`: every object at every depth has its members ordered by key (see `SortMembersSpec`, `SortValues` and `DumpsSortedOrderFree`) |
| Json.SortMembersSpec | app/utils/search.py:80 | `sort_keys` orders a dict's members strictly by key and keeps exactly its members |
| Json.StrictlySortedUnique | app/utils/search.py:80 | two strictly sorted member lists with the same members are equal |
| Json.SortedTail | app/utils/search.py:80 | the tail of a strictly sorted list is strictly sorted and holds every member but the head |
| Json.SortValues | app/utils/search.py:80 | sorting keeps each member's key at its position |
| Json.Dumps | app/utils/search.py:80 | `json.dumps` never yields the empty string |
| Json.Loads | app/utils/search.py:105 | `json.loads` fails exactly on the empty string |
| Json.LoadsDumps | app/utils/search.py:105 | `json.loads(json.dumps(x))` gives back `x` (by construction of the abstract encoding) |
| Json.DumpsSortedOrderFree | app/utils/search.py:80 | with `sort_keys=True` a dict serialises the same whatever the order its keys were inserted in |
| Json.DumpsUnsortedOrderMatters | app/utils/search.py:124 | without `sort_keys` two different member lists, including one dict in two insertion orders, serialise differently (by construction of the abstract encoding) |
| Seqs.FlattenConcat | app/service/document_processor.py:154-169 | flattening distributes over concatenation |
| Seqs.FlattenSnoc | app/service/document_processor.py:154-169 | flattening a list with one more batch appends that batch |
| Seqs.FlattenBatches | app/service/document_processor.py:154-155 | the slices `s[i:i+n]` for `i in range(0, len(s), n)` concatenate back to `s` |
| Seqs.BatchSizes | app/service/document_processor.py:154-155 | each slice is non-empty and at most `n` long, and all but the last are exactly `n` long |
| Seqs.BatchCount | app/service/document_processor.py:154 | there are no slices exactly when `s` is empty, and otherwise ceil(len(s)/n) of them |
| Seqs.BatchAt | app/service/document_processor.py:154-155 | slice `k` starts at `k*n` and is `s[k*n : k*n+n]` |
| Seqs.FlattenBatchesPrefix | app/service/document_processor.py:154-169 | the first `k` slices concatenate to `s[:k*n]` |
| Seqs.BatchIndex | app/service/document_processor.py:154 | slice `k` exists exactly when `k*n < len(s)` |
| Seqs.BatchesUnfold | app/service/knowledgebase_service.py:140-141 | the slices are the first `n` elements followed by the slices of the rest |
| Seqs.BatchingUnique | app/service/text_to_speech.py:84-85 | the range slicing is the only way to cut `s` into non-empty pieces of `n` elements but the last |
| Seqs.LastN | app/service/document_processor.py:169 | `s[-n:]` is the last `min(n, len(s))` elements of `s` |
| Text.LowerChar | app/utils/chunking.py:12 | lowering leaves no upper-case ASCII letter and changes nothing else |
| Text.Lower | app/core/diagram_chat.py:144 | `str.lower()` lowers each character and keeps the length |
| Text.LowerIdempotent | app/core/diagram_chat.py:144 | lowering twice is lowering once |
| Text.LStrip | app/service/speech_to_text.py:84 | the result is a suffix of the text that does not start with whitespace, and only whitespace was removed |
| Text.RStrip | app/service/speech_to_text.py:84 | the result is a prefix of the text that does not end with whitespace, and only whitespace was removed |
| Text.Strip | app/service/voice_agent_service.py:65 | `str.strip()` yields an infix of the text that neither starts nor ends with whitespace |
| Text.StripEmptyIffBlank | app/utils/chunking.py:83 | `s.strip()` is empty exactly when every character of `s` is whitespace |
| Text.Framed | app/core/diagram_chat.py:342-473 | the diagram text opens with its header and closes with its trailer |
| Text.ContainsInfix | app/core/diagram_chat.py:187-207 | a text that holds a phrase between two others contains it |
| Text.ReplaceChar | app/core/diagram_chat.py:349-354 | `replace("-", "_")` replaces exactly the matching characters and keeps the length |
| Text.Prefix | app/service/voice_agent_service.py:118 | `s[:n]` is the first `min(n, len(s))` characters of `s` |
| Text.AfterLast | app/utils/chunking.py:12 | `s.split(c)[-1]` is the suffix of `s` after the last `c`, without a `c`, and all of `s` when there is none |
| Text.SplitFrom | app/utils/chunking.py:83 | splitting yields at least one part |
| Text.Split | app/utils/chunking.py:83 | `str.split(sep)` yields at least one part |
| Text.JoinSplitFrom | app/utils/chunking.py:83 | joining the parts with the separator gives back the text behind the current part |
| Text.JoinSplit | app/utils/chunking.py:83 | `sep.join(s.split(sep)) == s` |

## Left out

- Embedding inference and devices: SentenceTransformer/torch inference and the choice of the MPS, CUDA or CPU device are left out. The embedding model is an oracle; vectors and scores are opaque values passed through.
- Qdrant: the index's own search is left out. The index is an oracle from the request to its hits, or a class over its collections whose every call takes its outcome as a parameter. The search parameters (`hnsw_ef` 128, quantisation with rescoring) and the payload selector of `_init_payload_selector`, which `search` never uses, are not modelled.
- Hashing and JSON: SHA-256, MD5 and the character-level JSON encoding are modelled as injective, abstract functions. Hex digests and the text of a JSON document are not computed.
- JWT: the HS256 signature of the LiveKit token (section 3.2 of RFC 7518) is left out; a token is its claim set. `get_room_token` (app/service/livekit_service.py:178-209) passes its arguments to `create_livekit_token` and is covered by `LiveKitAuth.CreateToken`.
- Retries: the `tenacity` `@retry` decorators on `_initialize_collection`, `_get_embeddings_with_retry`, `_store_embeddings_with_retry` and `_process_document` are modelled as a single attempt, and their waits are left out. Only `create_knowledge_base` has its three attempts modelled, because its retry is part of the duplicate-title finding below.
- Concurrency: `asyncio.to_thread`, `create_task`, the LiveKit event wiring (`_on_participant_connected`, `_on_track_subscribed`, `_process_track`) and interleavings of concurrent requests are left out. Every operation runs to completion alone, and an awaited call is a plain call.
- `_safe_transcription_callback`: it only logs the errors of the callback. The model hands each chunk to the callback and treats its outcome as ignored.
- Time: `time.sleep`, `asyncio.sleep` and the wall clock are left out. The current time is a parameter (`now`, the token's `nbf`, the research timestamp).
- Files: temporary directories, `shutil.rmtree` and the writing of the uploaded file are left out. The document processor's disk is a map from path to bytes. The cache file's pickle format is not modelled.
- Parsing: fitz and pandas are left out. The PDF blocks and sheet rows a reader yields, or the error it raises, are inputs.
- Floating point: Whisper's confidence `exp(mean(avg_logprob))` is a parameter. Only the "no segments gives 0.0" rule and the 0.6 threshold comparison are modelled. WAV encoding and resampling are not modelled.
- Text: Python's `str.lower` and `str.isalnum` are modelled on ASCII letters and digits only; Unicode case mapping is not modelled. `str()` of a non-string value inside an f-string is the parameter `show`.
- Exception messages: messages that quote the text of a library exception are approximated. Only their fixed prefixes are stated.
- LLM calls: the completions of `generate_diagram` (app/core/diagram_chat.py:213-332) and `_generate_description` are oracles. The diagram model yields either an architecture description or Mermaid text.
- `lru_cache` keys: the decorated methods are keyed on `self` as well. The model has one instance per class, so `self` is left out of the key.
- Imports: app/utils/search_later.py imports `app.configs` and `app.services`, and app/core/research_engine.py imports a `ResearchResult` that app/models/model.py does not define. The modules cannot be imported as written; their logic is modelled with those values as parameters. The settings the code reads but `Settings` lacks (audio chunk size, sample rate, LiveKit keys) are parameters too.
- DocumentProcessor.DocumentProcessor.ProcessDirectory: assumes the embedding model returns one vector per text it is given (`EncodesEach`). A model that returned fewer vectors would make the code store fewer records; that case is not modelled.
- DocumentProcessor.DocumentProcessor.ProcessNewFile: same assumption as above (`EncodesEach`).
- DocumentProcessor.DocumentProcessor.ProcessFile: same assumption as above (`EncodesEach`).
- DocumentProcessor.DocumentProcessor.ProcessFile: when a new file fails partway through its batches, the upserts already made stay, but the contract does not say which they are.
- DocumentProcessor.DocumentProcessor.ProcessListedFile: same assumption as above (`EncodesEach`).
- DocumentProcessor.DocumentProcessor.EmbedBatch: same assumption as above (`EncodesEach`).
- DocumentProcessor.DocumentProcessor.EmbedAndStore: same assumption as above (`EncodesEach`).
- DocumentProcessor.EncodeBatchSpec: same assumption as above (`EncodesEach`).
- DocumentProcessor.EncodeRunsSpec: same assumption as above (`EncodesEach`).
- DocumentProcessor.RecordsPerChunk: same assumption as above (`EncodesEach`).
- KnowledgeBase.EmbeddedSpec: same assumption as above (`EncodesEach`).
- KnowledgeBase.PointsPerChunk: same assumption as above (`EncodesEach`).
- Filter validation: `Range(**bounds)` and the match clause are pydantic models. Their own validation is not modelled: unknown or non-numeric bounds, and match values that are not a bool, an integer or a string. Only the `TypeError` for bounds that are not a mapping is modelled.
- Json.Dumps: states only that the output is never the empty string. Equality of texts is the equality of the values serialised, which the abstract encoding gives by construction.

## Findings

| source | as written | input that shows it | evidently intended | confidence | as-written member | corrected member |
|---|---|---|---|---|---|---|
| app/models/model.py:13 | `id: UUID = uuid4()` is evaluated once, when the class is defined, so every `ChatSession` built without an id has the same id, and `process_message` stores it under that id | two `process_message` calls without a session id, by users "u1" and "u2": afterwards the registry holds one session, u2's, and u1's conversation is gone | a fresh id per session (`default_factory=uuid4`), so a new session is added beside the stored ones | not executed | ChatModels.NewSessionsCollide | ChatModels.FreshSessionKeepsOthers |
| app/service/document_processor.py:169 | after each batch the 32 newest records, `embeddings_data[-32:]`, are upserted | a file with 40 chunks: the second step upserts records 8 to 39, so records 8 to 31 are stored twice under different ids | upsert only the records of the batch just embedded, so each record is stored once | not executed | DocumentProcessor.FortyRecords | DocumentProcessor.CurrentBatchesStoreOnce |
| app/service/knowledgebase_service.py:47-116 | the 409 for an existing collection is raised inside the `try`, so the cleanup deletes the existing collection; the retry decorator then runs again and recreates it from the new document | `create_knowledge_base` with a title the user already has a knowledge base for, with no failures: the request succeeds and the old knowledge base is replaced | answer 409 at once and leave the existing knowledge base as it was; clean up only a collection this call created | not executed | KnowledgeBase.KnowledgeBaseService.CreateKnowledgeBase | KnowledgeBase.KnowledgeBaseService.CreateKnowledgeBaseChecked |
| app/utils/search.py:127-131 | the result cache is looked up with `_cache_search_results(cache_key, "")`, whose entry is never one that was stored, and `json.loads("")` raises | any two identical searches with `use_cache=True`: the second embeds the query and queries the index again | a hit on a stored result list returns it without calling the model or the index | not executed | Search.LookupNeverHits | Search.QdrantSearch.SearchChecked |
| app/utils/search.py:165-168 | storing a result list starts with `cache_clear()` on the whole result cache | searches for "a" and then "b": after the second only "b"'s entry is held | storing adds an entry and keeps the others, up to the cache's bound | not executed | Search.QdrantSearch.StoreResults | Search.QdrantSearch.SearchChecked |
| app/utils/search.py:124 | the filter is serialised with `json.dumps` without `sort_keys` before it enters the key data, so `sort_keys` never reaches its keys | filters `{"page": 1, "type": "pdf"}` and `{"type": "pdf", "page": 1}`: same dict, different cache keys | the same filter gives the same key whatever its insertion order | not executed | Search.SameFilterTwoKeys | Search.CanonicalKeyOrderFree |
| app/utils/search_later.py:76-136 | `_generate_cache_key` is wrapped in `lru_cache`, which hashes its arguments, and a dict is unhashable | `search(..., filter_conditions={"type": "pdf"}, use_cache=True)` raises `TypeError` before any search | a filtered search is cached under a key that holds the filter | not executed | SearchLater.DictFilterRaises | SearchLater.CheckedFilterShared |
