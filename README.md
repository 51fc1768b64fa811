# GeminiSocial core, modelled in Dafny

GeminiSocial is a browser social feed (posts, likes, comments) with three
features served by a hosted generative-AI API: post suggestions, a
"community pulse" summary of the feed, and a live voice assistant. This
project models the parts of it that hold logic of their own:

- **The live voice session** (`ai_assistant.dfy`, module `Assistant`): the
  status machine (`idle`, `connecting`, `listening`, `speaking`), the
  `isActive` flag, the playback cursor `nextStartTime` that lays inbound
  audio chunks end to end, and the set of in-flight playback sources. The
  class `LiveSession` has one method per callback, each one atomic. Pure
  functions `Schedule`, `ScheduleRun` and `CursorAfter` say where chunks
  play. A ghost history of the chunks scheduled since the last reset ties
  the cursor to `CursorAfter`.
- **The service helpers** (`gemini_service.dfy`, module `GeminiService`):
  - `decode` and `encode` as loops over byte arrays around an abstract
    base64 pair (`atob`/`btoa`, section 4 of RFC 4648);
  - `decodeAudioData` as nested loops that de-interleave 16-bit
    little-endian samples into a planar buffer scaled by 1/32768;
  - the text of the feed-sentiment prompt.
- **The feed handlers** (`feed.dfy`, module `Feed`): `handlePostCreated`,
  `handleLike` and `handleComment` as functions from the old feed to the
  new one. The records of `types.ts` and the starting data of
  `constants.tsx` are in `types.dfy`.

Clock readings (`Date.now()`, the audio device's `currentTime`) and ids are
parameters. `LiveSession.OnMessage` takes the outcome of decoding the
message's audio: none, a chunk of some duration, or a failure.
`Assistant.DecodeChunk` computes that outcome from the base64 text with
`GeminiService.Decode` and `GeminiService.DecodeAudioData`, at 24000 Hz on
one channel, and the duration is `GeminiService.AudioBuffer.Duration` of the
decoded buffer. Ids are not assumed unique, so a like or a comment reaches
every post with the id.

The base64 pair is a value `Base64(atob, btoa)` of two functions.
`RoundTrips` states the one fact assumed of it: `atob(btoa(s)) == s` for
Latin-1 `s`. Lemmas that need this fact take it as a precondition.

Behaviour of the code that the model keeps as written:

- `stopLiveChat` (geminisocial/components/AIAssistant.tsx:114-123) and
  `onclose` (:93-96) neither clear `sourcesRef` nor reset
  `nextStartTimeRef`. `LiveSession.Stop` and `LiveSession.OnClose` leave the
  set and the cursor as they were. The scenario `RestartKeepsCursor` shows
  the effect: a session restarted after two seconds of audio schedules its
  first chunk two seconds late.
- `onmessage` sets `speaking` whenever a message carries audio, whatever the
  status. A source's `onended` sets `listening` whenever the set is then
  empty, whatever the status. The model does the same in every state.
- When the audio of a message fails to decode, `onmessage` has already set
  `speaking` and moved the cursor up to the clock. It then throws before a
  source is made and before the interruption flag is read. The scenario
  `UndecodableAudioScenario` shows a widget left `speaking` with no source
  that could ever end.
- Post ids are built from `Date.now()` and can collide. `handleLike` and
  `handleComment` map over the feed and update every post whose id matches.

## Model

| member | source | states |
|---|---|---|
| `Types.InitialPosts` | geminisocial/constants.tsx:18-43 | the starting feed has posts p-1 (24 likes, one comment) and p-2 (156 likes, none), newest first |
| `Feed.CreatePost` | geminisocial/App.tsx:32-44 | the new post is at index 0 and the old feed follows unchanged and in order; it has 0 likes, no comments, the signed-in user's id, name and avatar, the given id, body and time, and no image or AI flag |
| `Feed.Like` | geminisocial/App.tsx:46-50 | same length and order; each post with the id has one more like and is otherwise unchanged; every other post is unchanged |
| `Feed.NewComment` | geminisocial/App.tsx:53-60 | the comment carries the signed-in user's id, name and avatar, the given id, body and time |
| `Feed.AddComment` | geminisocial/App.tsx:61-63 | same length and order; each post with the id gets the comment appended at the end of its comments and nothing else changes; every other post is unchanged |
| `Feed.LikeAddsOccurrences` | geminisocial/App.tsx:46-50 | the feed's total likes grow by exactly the number of posts that carry the id |
| `Feed.CommentAddsOccurrences` | geminisocial/App.tsx:52-64 | the feed's total comments grow by exactly the number of posts that carry the id |
| `Feed.OccurrencesZeroIffAbsent` | geminisocial/App.tsx:46-63 | no post carries the id exactly when the count of posts carrying it is 0 |
| `Feed.LikeChangesTotalIffPresent` | geminisocial/App.tsx:46-50 | a like changes the feed's total likes exactly when some post carries the id |
| `Feed.LikeAbsentIsNoOp` | geminisocial/App.tsx:47-49 | a like on an id no post carries returns the feed unchanged |
| `Feed.CommentAbsentIsNoOp` | geminisocial/App.tsx:61-63 | a comment on an id no post carries returns the feed unchanged |
| `Feed.UpdatesKeepLikesNonNegative` | geminisocial/App.tsx:46-63 | no like counter decreases; non-negative counters stay non-negative under likes and comments |
| `Feed.CreateKeepsLikesNonNegative` | geminisocial/App.tsx:39 | a new post keeps every counter of the feed non-negative |
| `Feed.HandlersKeepNewestFirst` | geminisocial/App.tsx:32-64 | newest-first order survives likes and comments, and a new post whose time is not older than the front post |
| `Feed.CommentsKeepInsertionOrder` | geminisocial/App.tsx:62 | two comments on one post follow its earlier comments in the order they were made |
| `Feed.LikeCommentCommute` | geminisocial/App.tsx:46-63 | a like and a comment give the same feed in either order |
| `Feed.LikeNewPost` | geminisocial/App.tsx:32-50 | liking a post just created gives it 1 like and likes the rest of the feed as a like on the old feed would |
| `Feed.PromptAfterCreate` | geminisocial/App.tsx:20-44 | after a post is created the pulse prompt is the instruction, the new body, the separator, then the older bodies joined |
| `Feed.UpdatesKeepPrompt` | geminisocial/App.tsx:20-30 | after a like or a comment the pulse prompt is the same text as before |
| `Feed.ExampleLike` | geminisocial/constants.tsx:18-43 | the starting feed is newest first with non-negative likes, and a like on p-1 raises only the first post to 25 likes |
| `Feed.ExampleFirstPost` | geminisocial/App.tsx:14-43 | the signed-in user Alex Johnson (u-1, constants.tsx:4-9) posting on the starting feed gives three posts, the new one in front with that author and the old two behind, newest first with non-negative likes |
| `GeminiService.Latin1ToBytes` | geminisocial/services/geminiService.ts:29-33 | one byte per char, in order: byte i is char code i modulo 256, as a `Uint8Array` stores it |
| `GeminiService.BytesToLatin1` | geminisocial/services/geminiService.ts:57-61 | one char per byte, in order: char code i is byte i, so the string is Latin-1 |
| `GeminiService.BytesLatin1RoundTrip` | geminisocial/services/geminiService.ts:27-63 | turning bytes into chars and back gives the same bytes |
| `GeminiService.Latin1BytesRoundTrip` | geminisocial/services/geminiService.ts:27-63 | chars to bytes and back gives the same string exactly when every code is below 256 |
| `GeminiService.DecodeEncodeRoundTrip` | geminisocial/services/geminiService.ts:27-63 | given the base64 round trip, decode(encode(bytes)) is the bytes |
| `GeminiService.Decode` | geminisocial/services/geminiService.ts:27-35 | fails exactly when `atob` throws; otherwise the array has as many bytes as the decoded string has chars, byte i being char code i |
| `GeminiService.Encode` | geminisocial/services/geminiService.ts:56-63 | the result is `btoa` of the string with one char per byte whose code i is byte i |
| `GeminiService.Int16At` | geminisocial/services/geminiService.ts:43 | sample k is the signed 16-bit value whose two's-complement bits are byte 2k (low) and byte 2k+1 (high) |
| `GeminiService.Int16ToBytes` | geminisocial/components/AIAssistant.tsx:40-45 | the byte view of captured samples has two bytes per sample, low byte first |
| `GeminiService.Int16Bytes` | geminisocial/services/geminiService.ts:43 | a sample's low and high byte make up its 16-bit pattern, and that pattern read as signed is the sample |
| `GeminiService.Int16ToBytesRoundTrip` | geminisocial/services/geminiService.ts:43 | reading sample k back from the bytes of captured samples gives sample k |
| `GeminiService.Normalize` | geminisocial/services/geminiService.ts:50 | a scaled sample lies in [-1, 32767/32768] and times 32768 gives back the integer sample |
| `GeminiService.FrameCount` | geminisocial/services/geminiService.ts:43-44 | the frame count is the largest number of whole frames (2 bytes per sample, one sample per channel) that fit in the bytes |
| `GeminiService.ChannelSample` | geminisocial/services/geminiService.ts:50 | frame i of channel c is interleaved sample i*channels+c, which lies inside the data, scaled into [-1, 32767/32768] |
| `GeminiService.MonoFrames` | geminisocial/services/geminiService.ts:44-50 | with one channel, the frame count is the byte length over 2 and frame i is sample i scaled |
| `GeminiService.PcmRoundTrip` | geminisocial/services/geminiService.ts:43-50 | captured samples sent as bytes decode, one channel, to as many frames, each times 32768 equal to its sample |
| `GeminiService.AudioBuffer.constructor` | geminisocial/services/geminiService.ts:45 | a zero-filled planar buffer of the given channels, frames and rate |
| `GeminiService.AudioBuffer.Duration` | geminisocial/components/AIAssistant.tsx:79 | the duration is non-negative and times the sample rate gives the frame count |
| `GeminiService.DecodeAudioData` | geminisocial/services/geminiService.ts:37-54 | fails exactly for an odd byte length or zero frames; otherwise a fresh buffer of the requested channels and rate, with bytes/2/channels frames, frame i of channel c being sample i*channels+c scaled by 1/32768 |
| `GeminiService.Contents` | geminisocial/services/geminiService.ts:18 | one body per post, in feed order |
| `GeminiService.Join` | geminisocial/services/geminiService.ts:18 | joining no parts gives the empty string; a join starts with the first part and ends with the last |
| `GeminiService.SentimentPrompt` | geminisocial/services/geminiService.ts:18-21 | the prompt starts with the instruction followed by the first post's body, ends with the last post's body, and is the instruction alone for an empty feed |
| `GeminiService.JoinAppend` | geminisocial/services/geminiService.ts:18 | joining two non-empty lists puts exactly one separator between their joins |
| `GeminiService.JoinLength` | geminisocial/services/geminiService.ts:18 | a join holds every part and one separator between neighbours, nothing more |
| `GeminiService.PromptListsPostsInOrder` | geminisocial/services/geminiService.ts:18-21 | the prompt body is the bodies of any first n posts joined, the separator, then the remaining bodies joined |
| `Assistant.Schedule` | geminisocial/components/AIAssistant.tsx:61-79 | a chunk starts no earlier than the cursor or the device clock, at one of the two, and keeps its duration |
| `Assistant.ScheduleRun` | geminisocial/components/AIAssistant.tsx:59-80 | one slot per chunk, none starting before its arrival time, each with its chunk's duration |
| `Assistant.CursorAfter` | geminisocial/components/AIAssistant.tsx:61-79 | with no chunks the cursor is where it was; otherwise it is at least the last chunk's arrival time plus its duration, and never behind where it started while durations are not negative |
| `Assistant.CursorAdvances` | geminisocial/components/AIAssistant.tsx:61-79 | the cursor grows by at least the scheduled audio |
| `Assistant.CursorEndsLastSlot` | geminisocial/components/AIAssistant.tsx:61-79 | the cursor ends where the last scheduled chunk ends |
| `Assistant.ScheduleRunNoOverlap` | geminisocial/components/AIAssistant.tsx:61-79 | scheduled chunks never overlap, and the first starts no earlier than the cursor |
| `Assistant.ScheduleRunGapless` | geminisocial/components/AIAssistant.tsx:61-79 | when every chunk arrives no later than the cursor it meets (before the audio queued ahead of it runs out), the chunks play back to back, chunk k starting at the first cursor plus the earlier durations, and the cursor ends at the first cursor plus all durations |
| `Assistant.StaggeredChunksBackToBack` | geminisocial/components/AIAssistant.tsx:61-79 | 0.5 s chunks arriving at 0, 0.1 and 0.2 arrive in time and play at 0, 0.5 and 1.0 |
| `Assistant.ThreeChunksBackToBack` | geminisocial/components/AIAssistant.tsx:61-79 | three 0.5 s chunks arriving at 0 play at 0, 0.5 and 1.0 and leave the cursor at 1.5 |
| `Assistant.StalledChunkStartsAtClock` | geminisocial/components/AIAssistant.tsx:61-79 | a chunk arriving at 2.0 after a 0.5 s chunk starts at 2.0 and leaves the cursor at 2.5 |
| `Assistant.InboundAudio` | geminisocial/components/AIAssistant.tsx:58-68 | empty data is no audio; the audio fails exactly when `atob` throws or the bytes are odd in number or hold no frame; otherwise the chunk lasts (bytes/2)/24000 seconds, more than 0 |
| `Assistant.DecodeChunk` | geminisocial/components/AIAssistant.tsx:58-68 | decoding a message's base64 audio with `decode` and `decodeAudioData` (24000 Hz, one channel) gives exactly the outcome `InboundAudio` describes |
| `Assistant.LiveSession.constructor` | geminisocial/components/AIAssistant.tsx:9-16 | a new widget is idle and inactive, with the cursor at 0 and no sources |
| `Assistant.LiveSession.Start` | geminisocial/components/AIAssistant.tsx:18-19 | start shows connecting from any state and changes nothing else |
| `Assistant.LiveSession.StartFailed` | geminisocial/components/AIAssistant.tsx:108-111 | a setup failure shows idle and changes nothing else |
| `Assistant.LiveSession.OnOpen` | geminisocial/components/AIAssistant.tsx:31-33 | an open channel shows listening and makes the session active |
| `Assistant.LiveSession.OnMessage` | geminisocial/components/AIAssistant.tsx:57-88 | a decoded chunk shows speaking and plays in a new source at the scheduled slot; audio that fails to decode shows speaking, moves the cursor to max(cursor, clock), makes no source and skips the interruption; a message without audio keeps the status; an interruption, handled second, stops every source including the new one, empties the set and resets the cursor to 0 |
| `Assistant.LiveSession.DropChunk` | geminisocial/components/AIAssistant.tsx:60-64 | failed audio leaves the status speaking and the cursor at the later of itself and the clock, with no source made |
| `Assistant.LiveSession.PlayChunk` | geminisocial/components/AIAssistant.tsx:59-80 | the chunk starts at max(cursor, clock), never before the clock; the cursor moves to its end and the new source joins the set |
| `Assistant.LiveSession.Interrupt` | geminisocial/components/AIAssistant.tsx:83-87 | every source in the set is stopped, the set is empty and the cursor is 0, whatever they were |
| `Assistant.LiveSession.StopAll` | geminisocial/components/AIAssistant.tsx:84 | stop is called on every source in the set |
| `Assistant.LiveSession.OnEnded` | geminisocial/components/AIAssistant.tsx:73-76 | the source leaves the set, and the status becomes listening exactly when the set is then empty |
| `Assistant.LiveSession.Stop` | geminisocial/components/AIAssistant.tsx:114-123 | idle and inactive; the set and the cursor are left as they were |
| `Assistant.LiveSession.OnError` | geminisocial/components/AIAssistant.tsx:89-92 | an error does what stop does |
| `Assistant.LiveSession.OnClose` | geminisocial/components/AIAssistant.tsx:93-96 | idle and inactive; the set and the cursor are left as they were |
| `Assistant.LiveSession.CursorNonNegative` | geminisocial/components/AIAssistant.tsx:61-86 | the cursor is never negative |
| `Assistant.RestartKeepsCursor` | geminisocial/components/AIAssistant.tsx:114-123 | after two seconds of audio, a stop and a restart, a chunk arriving at clock 0 is played by source 1 from 2.0 |
| `Assistant.InterruptionScenario` | geminisocial/components/AIAssistant.tsx:73-87 | an interruption during speech stops sources 0 and 1 and resets the cursor; the status stays speaking until a stopped source reports its end, then becomes listening |
| `Assistant.UndecodableAudioScenario` | geminisocial/components/AIAssistant.tsx:59-87 | undecodable audio after all playback ended leaves the status speaking with an empty set and the cursor at the clock (2.0) |

## Left out

- Rendering: all JSX, the `isOpen` toggle of the assistant panel, `Navbar.tsx`, `Sidebar.tsx` and the markup of `CreatePost.tsx` and `PostCard.tsx`. Their callers pass only text that is not blank after trimming. The handlers do not check this, so the model has no such precondition.
- Network calls: `suggestPostContent` (a request and a fallback string), the request and fallback of `analyzeFeedSentiment` (only its prompt text is modelled), `ai.live.connect`, `sendRealtimeInput`, the `sessionRef` handle and its `close()`, and the pulse fetch in `useEffect`.
- Device plumbing: `getUserMedia`, the two `AudioContext`s and their `close()`, the script processor, `createBufferSource` and `connect`. The device clock is a parameter.
- The guard on the output context in `onmessage`: it always holds when a message can arrive, because the context is created before the connection opens and is never cleared.
- The capture-side conversion `inputData[i] * 32768`: floating point with implicit wrap-around. `Int16ToBytes` takes the 16-bit samples as given and models only their byte layout.
- The internals of `atob` and `btoa`: browser built-ins, taken as an abstract pair with the round trip assumed (`RoundTrips`).
- Promise and callback interleaving, including the `await` inside `onmessage`: each callback is one atomic step with one clock reading. A failed decode is the callback's rejection after its first two statements (`DropChunk`); the ghost history records it as a chunk of length 0 at that clock reading, which moves the cursor exactly as `Math.max` does.
- Where `Date.now()` ids and timestamps come from: they are parameters. The id of a post and its `createdAt` are two separate clock readings in the code.
- What the code does not do: guard against a second start, reset on stop, apply backpressure to outgoing audio.
- `console.error` logging.
- GeminiService.DecodeAudioData: platform byte order is taken as little-endian. `createBuffer`'s ranges for the channel count (1 to 32) and the rate (3000 to 768000 Hz) are preconditions; the one caller passes 1 and 24000.
- GeminiService.DecodeAudioData: when the sample count is not a multiple of the channel count, the code's loop makes one extra pass whose writes fall outside the channel arrays and are ignored. The model stops at the last whole frame.
- GeminiService.DecodeAudioData: channel data is `real`. The code stores `Float32`, which holds every int16/32768 exactly.
- Strings: a Dafny `char` is a Unicode scalar value, while a JavaScript string is a sequence of UTF-16 code units. Lengths differ for characters outside the Basic Multilingual Plane: the emoji of the starting post's body are one char each here and two code units each in JavaScript. The codec only ever handles Latin-1 strings, where the two agree; no modelled property depends on the length of a post body.
- Time and durations: the device clock, chunk durations and the cursor are JavaScript doubles, modelled as exact `real`s. `nextStartTimeRef.current += audioBuffer.duration` rounds in the code, so `ScheduleRunGapless` and the other cursor equalities hold up to that rounding.
- Like counters: `likes` is a JavaScript number, modelled as an unbounded integer; the counter's loss of precision above 2^53 is not modelled.
