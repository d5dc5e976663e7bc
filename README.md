# Rialto GStreamer sinks: a Dafny model of their decision logic

This project models, in Dafny, the sequential logic inside five parts of the Rialto GStreamer
sink library and its unit-test runner, and proves what that logic promises:

- **LogToGst** (`log_to_gst.dfy`) covers the handler that forwards the Rialto client library's
  log lines to GStreamer's debug log. It models:
  - the text of each line and the GStreamer category chosen per level;
  - the file-scope reference count `g_referenceCount`, which decides when the handler is
    registered with the client log control and when it is cancelled.

  The count is a class with one field. Its three static operations are methods, each proved
  against a pure step function. The unit tests' call sequences become scenario lemmas.
- **BufferParser** (`buffer_parser.dfy`) turns a buffer and its caps into a media segment. It
  covers:
  - detection of the encryption format;
  - the full-sample subsample that CENC and WebM require (section 9.2 of ISO/IEC 23001-7,
    section 4.5 of the WebM encryption specification);
  - copying of the protection fields;
  - the codec data;
  - the audio and video fields and their defaults;
  - the length check and the big-endian decoding of the subsample blob.

  The segment is a class whose fields the parsers set.
- **Timer** (`timer.dfy`) is the one-shot timer with its own thread. It covers:
  - the message deque, where an urgent message goes to the front and any other to the back;
  - the thread loop, which handles ARM, CANCEL, QUIT and every other message, fires on a
    timeout and exits;
  - the normalisation of the deadline.

  The thread is run one loop iteration at a time. Each iteration is given what the condition
  wait returned and what the monotonic clock read.
- **SubtitleSink** (`subtitle_sink.dfy`) is the subtitle sink element. It covers:
  - the MIME type chosen from the caps;
  - attaching the text source at most once;
  - the READY_TO_PAUSED state change;
  - the `mute` property.
- **BuildUt** (`build_ut.dfy`) is the unit-test runner script. It covers:
  - the clean, cmake, make and per-suite test commands, including the valgrind prefix;
  - the resolution of the results-file and xml-file names;
  - the exit codes that are tolerated (0 and 101);
  - how the exit codes decide the run: exit, failure of the tests, or a coverage report.

  The exit code of each command is an input, in the order the commands are planned.

`common.dfy` holds the shared `Option`, `byte`, `uint32` and prefix definitions, and the decimal rendering of integers used both for the log line number and for make's `-j<cpus>`.

Where a value comes from code outside these files, it is a parameter of the model. This covers:
- the result of each registration call;
- `ProcessProtectionMetadata`'s metadata;
- the condition-wait outcome and the clock reading;
- the presence of the media player client and the results of its calls;
- the exit code of each process.

Two details of build_ut.py that the model follows:
- build_ut.py:38 tolerates 101 from every command, including cmake, make and `rm`.
  Only runTests counts a 101 as a failure.
- The `-f` help text (build_ut.py:64-67) names the valgrind log `*_valgrind_report.txt`.
  The code writes `<suite>_valgrind_report.log` (build_ut.py:205), and the model follows the code.

## Model

| member | source | states |
|---|---|---|
| LogToGst.CategoryOf | source/LogToGstHandler.cpp:69-93 | Fatal and Error map to ERROR, Warning to WARNING, Milestone and Info to INFO, Debug to DEBUG, and External and any other value to LOG. Each is stated as an if-and-only-if. |
| LogToGst.CategoryRespectsSeverity | source/LogToGstHandler.cpp:69-93 | A level no more severe than another is never reported at a more severe GStreamer level: the mapping is monotone. |
| Common.NatDigits | source/LogToGstHandler.cpp:66 | `std::to_string` of a natural number gives at least one decimal digit, and no leading zero unless the number is 0. |
| Common.DecimalString | source/LogToGstHandler.cpp:66 | `std::to_string` of an int is non-empty and starts with '-' exactly for negative numbers. |
| Common.ParseNatDigits | source/LogToGstHandler.cpp:66 | Reading the digits of n back gives n. |
| Common.DecimalRoundTrip | source/LogToGstHandler.cpp:66 | The rendered line number is a decimal numeral whose value is the line. |
| LogToGst.Log | source/LogToGstHandler.cpp:60-94 | A log line is reported in the category of its level. Its text is "M:" + file + " F:" + function + " L:", then a decimal numeral whose value is the line, then " > " + message. |
| LogToGst.PreRegister | source/LogToGstHandler.cpp:96-116 | It calls the log control exactly when the count is -2. It moves to -1 only when that registration succeeds and otherwise leaves the count alone. |
| LogToGst.SinkInit | source/LogToGstHandler.cpp:118-163 | Above 0 it increments without a call. At -1 it goes to 1 without a call. At 0 or at most -2 it registers: 1 on success, 0 on failure, so the next init retries. |
| LogToGst.SinkFinalize | source/LogToGstHandler.cpp:165-194 | At 0 or below nothing changes and no call is made. Above 1 it decrements. At 1 it cancels: 0 on success, -1 (the pre-registered state) on failure. |
| LogToGst.StepPreservesConsistency | source/LogToGstHandler.cpp:37-47 | Each operation keeps the documented invariant: the count stays at least -2, and the handler is registered exactly in the "in use" regimes (-1 and 1+). |
| LogToGst.RunPreservesConsistency | source/LogToGstHandler.cpp:37-47 | Any sequence of operations keeps that invariant and only appends to the calls made. |
| LogToGst.InitsWhileInUse | source/LogToGstHandler.cpp:122-126 | While a sink is in use, any number of inits only count up and make no call. |
| LogToGst.FinalizesWhileInUse | source/LogToGstHandler.cpp:169-173 | Finalizing fewer sinks than are in use only counts down and makes no call. |
| LogToGst.SinksComeAndGo | source/LogToGstHandler.cpp:118-184 | Start with the handler not in use. Then n sinks are initialised and all finalized. The handler is registered once, by the first init, and cancelled once, by the last finalize. No other call is made, whatever the other calls would return. |
| LogToGst.ScenarioInitThenFinalize | tests/ut/LogToGstHandlerTests.cpp:62-70 | One init and one finalize make exactly one registration and one cancellation. |
| LogToGst.ScenarioRegisterRetry | tests/ut/LogToGstHandlerTests.cpp:72-88 | A failed registration is retried by the next init. Later inits and finalizes make no call until the last finalize cancels. |
| LogToGst.ScenarioCancelFails | tests/ut/LogToGstHandlerTests.cpp:90-104 | A failed cancellation leaves the count at -1. The next init makes no call, and the following finalize cancels again. |
| LogToGst.ScenarioFinalizeTooEarly | tests/ut/LogToGstHandlerTests.cpp:106-118 | A finalize before any init changes nothing. An init and a finalize afterwards work as usual. |
| LogToGst.ScenarioPreRegisteredTwoSinks | source/LogToGstHandler.cpp:96-184 | Pre-register, init, init, finalize, finalize make exactly two calls: the pre-registration, and the cancellation on the last finalize. |
| LogToGst.LogToGstHandler.constructor | source/LogToGstHandler.cpp:47 | The count starts at -2 and the handler is not registered. |
| LogToGst.LogToGstHandler.LogToGstPreRegister | source/LogToGstHandler.cpp:96-116 | It updates the count in place exactly as PreRegister says, reports the call it made, and keeps the invariant. |
| LogToGst.LogToGstHandler.LogToGstSinkInit | source/LogToGstHandler.cpp:118-163 | It updates the count in place exactly as SinkInit says, reports the call it made, and keeps the invariant. |
| LogToGst.LogToGstHandler.LogToGstSinkFinalize | source/LogToGstHandler.cpp:165-194 | It updates the count in place exactly as SinkFinalize says, reports the call it made, and keeps the invariant. |
| BufferParser.EncryptionFormatOf | source/BufferParser.cpp:50-62 | The format is CENC iff the media type is "application/x-cenc", WEBM iff it is "application/x-webm-enc", and CLEAR otherwise. |
| BufferParser.WithFullSampleSubsample | source/BufferParser.cpp:64-73 | One subsample (0, map size cast to uint32_t) is added exactly when the format is CENC or WEBM, the buffer is encrypted and it has no subsamples. Nothing else in the metadata changes. |
| BufferParser.FullSampleCoversBuffer | source/BufferParser.cpp:64-73 | After that step an encrypted CENC or WEBM sample always has subsamples. The added subsample covers the whole buffer as encrypted bytes. |
| BufferParser.CStringBytes | source/BufferParser.cpp:126-130 | The string codec data is the prefix before the first zero byte: it holds no zero, and a zero ends it unless the raw bytes end first. |
| BufferParser.CStringWithoutZero | source/BufferParser.cpp:130 | A string without a zero byte is copied whole. |
| BufferParser.CodecDataOf | source/BufferParser.cpp:105-134 | A buffer value that maps gives BUFFER data with the same bytes. A buffer that does not map gives nothing, and no string is tried. A non-null string gives STRING data without a terminator. An absent value or any other value gives nothing. |
| BufferParser.SubSampleAt | source/BufferParser.cpp:238-243 | A record is read as a big-endian uint16 of clear bytes followed by a big-endian uint32 of encrypted bytes. |
| BufferParser.DecodeSubsamples | source/BufferParser.cpp:235-246 | The intended decoding: count subsamples, the i-th read at offset 6·i. |
| BufferParser.DecodeEncodeRoundTrip | source/BufferParser.cpp:235-246 | Decoding the big-endian records of any subsamples that fit their fields gives those subsamples back. |
| BufferParser.ApplyProtection | source/BufferParser.cpp:75-98 | A clear buffer leaves the encryption part unchanged. An encrypted one copies the session id, key id, IV, initWithLast15 and cipher mode. It sets the pattern only when one is set, and appends the subsamples in order after the existing ones. |
| BufferParser.MediaSegment.constructor | source/BufferParser.cpp:149-150 | A new segment holds the stream id, time stamp, duration and stream-specific fields, with no data, no codec data and no protection. |
| BufferParser.MediaSegment.AddSubSample | source/BufferParser.cpp:97 | It appends one subsample at the end. |
| BufferParser.AddSubSamples | source/BufferParser.cpp:92-98 | The loop appends every subsample of the metadata, in order. |
| BufferParser.AddProtectionMetadataToSegment | source/BufferParser.cpp:47-100 | The encryption part becomes ApplyProtection of the metadata after the full-sample step. The other fields of the segment are unchanged. |
| BufferParser.AddCodecDataToSegment | source/BufferParser.cpp:102-135 | The codec data is set exactly when the structure's value yields some, and then to that value. |
| BufferParser.ParseAudioSpecificPart | source/BufferParser.cpp:137-153 | Rate and channels default to 0 when absent. The new segment has no data and no protection. |
| BufferParser.AsWrittenReadsFirstRecordOnly | source/BufferParser.cpp:220-246 | As written, an accepted blob (count > 0, a buffer that maps, size / 6 == count) yields count subsamples, all equal to its first record. A rejected blob yields none. |
| BufferParser.AddVideoSubsamples | source/BufferParser.cpp:220-251 | The video loop appends the subsamples as written: the read offset starts at 0 and never moves. |
| BufferParser.SubsampleOffsetNotAdvanced | source/BufferParser.cpp:235-245 | A two-record blob holding (1, 2) and (3, 4) yields (1, 2) twice as written. The intended decoding gives (1, 2), (3, 4). |
| BufferParser.ParseVideoSpecificPart | source/BufferParser.cpp:171-254 | Width and height default to 0 and the frame rate to kUndefinedSize/kUndefinedSize. The secure token is there only with a protection meta. The subsamples are as written. The meta is removed exactly when the count is non-zero. |
| BufferParser.AsInt64 | source/BufferParser.cpp:31-32 | The cast of an unsigned 64-bit time to int64_t is in range and congruent to it modulo 2^64. |
| BufferParser.ClockTimeNoneIsMinusOne | source/BufferParser.cpp:31-32 | GST_CLOCK_TIME_NONE becomes -1. |
| BufferParser.ParseBuffer | source/BufferParser.cpp:28-45 | The segment holds the cast time stamp and duration, the stream-specific fields, the mapped data, and the codec data. Its protection is the full-sample and copy step applied on top of the video subsamples. |
| Timer.CDivRem | source/Timer.cpp:246-249 | C's truncating / and % satisfy a == q·b + r with \|r\| < b, and agree with Euclidean division for a ≥ 0. |
| Timer.DeadlineIsTimeoutLater | source/Timer.cpp:246-249 | The deadline lies timeout·10^6 ns after the clock reading. For timeout ≥ 0 and a normalised reading, the deadline's nsec is normalised too. |
| Timer.Post | source/Timer.cpp:300-311 | An urgent message goes to the front and any other to the back. The rest of the queue keeps its order, and exactly the one message is added. |
| Timer.Handle | source/Timer.cpp:235-269 | ARM arms and sets the deadline when the clock reads; re-arming an armed timer only moves its deadline; a failed clock read changes nothing. CANCEL disarms. QUIT sets quit. Other messages change nothing. |
| Timer.NextConsumesFront | source/Timer.cpp:228-278 | With a message queued, a step removes exactly the front message and fires nothing. The loop ends exactly when that message is QUIT, and then returns true. |
| Timer.FiringDisarms | source/Timer.cpp:212-227 | The callback runs only on a timeout while armed with an empty queue. The timer is disarmed afterwards and the thread keeps running. |
| Timer.UrgentQuitIsNext | source/Timer.cpp:95-104 | After the destructor's urgent QUIT, the next step handles QUIT ahead of every pending message and the thread returns true. |
| Timer.AtMostOneFirePerArm | source/Timer.cpp:212-227 | Over any run, the callback runs at most once per ARM that armed the timer, counting the start state's arming. |
| Timer.CancelledStep | source/Timer.cpp:107-112 | With a CANCEL queued and no ARM behind it, or disarmed with no ARM queued, an iteration does not fire and keeps that condition. |
| Timer.CancelledNeverFires | source/Timer.cpp:107-112 | From such a state, no run calls the callback, whatever the waits and the clock do. |
| Timer.NoFireAfterCancel | source/Timer.cpp:107-118 | After cancel() posts its CANCEL, the thread never calls the callback, whatever was queued before, whether it was armed, and whatever the waits and the clock do. |
| Timer.StoppedStaysStopped | source/Timer.cpp:278-287 | Once the thread function has returned, nothing changes any more. |
| Timer.Timer.constructor | source/Timer.cpp:49-90 | The thread starts with an empty queue, not armed, not quitting, and running. |
| Timer.Timer.PostTimerMessage | source/Timer.cpp:300-315 | The queue becomes Post of the old queue. |
| Timer.Timer.Arm | source/Timer.cpp:132-137 | An ARM message with the timeout goes to the back of the queue. |
| Timer.Timer.Cancel | source/Timer.cpp:107-118 | A CANCEL message goes to the back of the queue, which leaves the timer cancelled for good (see NoFireAfterCancel). |
| Timer.Timer.PostQuit | source/Timer.cpp:95-99 | The destructor puts QUIT at the front of the queue. |
| Timer.Timer.Step | source/Timer.cpp:173-278 | One loop iteration updates the queue, the flags, the deadline and the thread's status in place, exactly as Next says. It reports whether the callback ran. |
| Timer.Timer.TimerThread | source/Timer.cpp:144-288 | The do-while loop over given wait outcomes ends in the state Run computes, with the same number of callback runs. |
| SubtitleSink.CreateMediaSource | source/RialtoGStreamerMSESubtitleSink.cpp:115-140 | A name with prefix "text/vtt" gives "text/vtt". Any other non-null name gives "application/ttml+xml". A null name gives no source. |
| SubtitleSink.CreatedTypeIsSupported | source/RialtoGStreamerMSESubtitleSink.cpp:313-314 | Every source made has one of the MIME types the sink's caps list. WebVTT is chosen exactly for names that begin with "text/vtt". |
| SubtitleSink.OnEvent | source/RialtoGStreamerMSESubtitleSink.cpp:142-186 | Once attached, nothing is attempted and the flag stays true. attachSource is called exactly for a caps event with no source attached, a source made and a client present. The flag becomes true exactly after a successful attach. |
| SubtitleSink.AttachesAtMostOnce | source/RialtoGStreamerMSESubtitleSink.cpp:152-178 | Over any sequence of events and client behaviours, at most one attachSource succeeds, and none once a source was attached. The flag ends true exactly when it started true or one succeeded. |
| SubtitleSink.SinkPrivate.HandleEvent | source/RialtoGStreamerMSESubtitleSink.cpp:142-186 | It updates m_sourceAttached in place as OnEvent says. Every event is forwarded to the base sink's handler, whose result it returns. |
| SubtitleSink.ChangeState | source/RialtoGStreamerMSESubtitleSink.cpp:47-113 | READY_TO_PAUSED fails without calling the parent when the client cannot be attached or found. Otherwise it passes the parent's text stream count (0 when unavailable) with isTextOnly false and returns the parent's result. Other transitions go straight to the parent. |
| SubtitleSink.ChangeStateFailure | source/RialtoGStreamerMSESubtitleSink.cpp:52-112 | A state change fails exactly when READY_TO_PAUSED finds no client or the parent fails. The client hears of the text streams exactly when READY_TO_PAUSED reaches the parent. |
| SubtitleSink.GetProperty | source/RialtoGStreamerMSESubtitleSink.cpp:188-223 | A value is written exactly for "mute" with the sink, its private part and a client present, and it is true. Otherwise a diagnostic is logged. |
| SubtitleSink.SetProperty | source/RialtoGStreamerMSESubtitleSink.cpp:225-260 | Nothing is logged exactly for "mute" with the sink, its private part and a client present. |
| SubtitleSink.GetAfterSet | source/RialtoGStreamerMSESubtitleSink.cpp:188-260 | Getting and setting check the same conditions in the same order and log the same diagnostic. Since setting stores nothing, "mute" reads true after a set to either value. |
| BuildUt.RunCmd | build_ut.py:36-42 | The status comes back exactly for exit codes 0 and 101. Otherwise the script exits, naming the command and its code. |
| BuildUt.FirstIntolerableSpec | build_ut.py:36-42 | No intolerable code is found exactly when all are tolerated. Otherwise the one found is intolerable with only tolerated codes before it. |
| BuildUt.ResolveFileName | build_ut.py:107-123 | An absent option means no file. An option given without a value means the default name, and any other value is the name itself. |
| BuildUt.ResolvedNameIsFinal | build_ut.py:108-121 | A resolved name is never empty, and resolving it again gives it back. |
| BuildUt.ErrorExitCodeIs101 | build_ut.py:199 | The valgrind flag is "--error-exitcode=101". |
| BuildUt.AddValgrindShape | build_ut.py:198-214 | The valgrind prefix starts with the six fixed flags and ends with the suppressions file beside the script. In between come the xml options with xml, else the log file with a results file, else nothing. |
| BuildUt.ValgrindArgsAreNotGtestArgs | build_ut.py:198-214 | No valgrind option begins "--g", so none is taken for a googletest option. |
| BuildUt.ValgrindDestination | build_ut.py:201-205 | Valgrind writes to its xml file exactly when xml was asked for. It writes to a log file exactly when a results file was asked for without xml. |
| BuildUt.CmakeCommandShape | build_ut.py:137-140 | cmake gets its fixed options with the branch. It gets -DCOVERAGE_ENABLED=1 appended exactly when coverage is on. |
| BuildUt.MakeArgsShape | build_ut.py:144-147 | make gets -j<cpus> and then every suite's target, in the suite map's order. |
| BuildUt.MakeCommand | build_ut.py:144-147 | The loop that appends the targets builds that make command. |
| BuildUt.BuildTargets | build_ut.py:135-153 | cmake runs, then make unless cmake's code ended the script. The commands run and the way the script ends are those the exit codes decide. |
| BuildUt.NoGtestArgBeforeSelection | build_ut.py:162-167 | Neither the valgrind prefix nor the executable holds an argument that begins like a googletest option. |
| BuildUt.TestCommandShape | build_ut.py:162-171 | The valgrind prefix comes first, then "./<path><suite>". The command lists the tests when asked, and otherwise passes the filter when one was given. |
| BuildUt.ListingExcludesFilter | build_ut.py:168-171 | Listing the tests leaves out the filter. |
| BuildUt.XmlOutputOnlyWithoutValgrind | build_ut.py:173-176 | --gtest_output=xml:<key>_<xml> appears exactly when xml was asked for without valgrind, and then it is the last argument. |
| BuildUt.BuildTestCommand | build_ut.py:160-176 | runTests' building of a suite's command gives TestCommand. |
| BuildUt.RunTestsDecision | build_ut.py:184-195 | The tests fail exactly when every code was tolerated and a suite returned 101. Any other non-zero code has already ended the script, so the "other error" branch never runs. The coverage report is made exactly when coverage is on and every suite returned 0. |
| BuildUt.RunTests | build_ut.py:156-195 | The suite loop, with hasFailed collecting failures, runs the commands the codes decide and ends as RunTestsOutcome says. |
| BuildUt.RanSequence | build_ut.py:36-42 | Running one list of commands and then another works as follows. When the first list ends the script, the second never runs. Otherwise the first runs in full and the second decides. |
| BuildUt.PhasedDecision | build_ut.py:100-132 | Setup commands followed by tests: the run exits exactly when some code is intolerable, at the first such command, having run exactly up to it. The tests fail exactly when the tests ran, all codes were tolerated and a test returned 101. Coverage is reported exactly when the tests ran with coverage on and every test returned 0. |
| BuildUt.ScriptDecision | build_ut.py:59-132 | The same, for the script's clean, build and test phases. A 101 from rm, cmake or make does not fail the run. |
| BuildUt.CleanStep | build_ut.py:100-105 | The rm command runs only with --clean, and its code decides whether the script ends there. |
| BuildUt.BuildStep | build_ut.py:125-127 | buildTargets runs only without --noBuild. |
| BuildUt.TestStep | build_ut.py:107-132 | The file names are resolved and runTests runs only without --noTest. Without tests the script ends without a coverage report. |
| BuildUt.RunScript | build_ut.py:59-132 | main runs exactly the planned commands up to the first intolerable code, and ends as ScriptOutcome says. |

## Left out

- Threads, mutexes and condition variables of the timer are left out. The thread is modelled one loop iteration at a time. A message posted during a wait is taken as posted after that iteration.
- `pthread_join` and the destructor's clean-up after the urgent QUIT are left out, as are `prctl` and the failures of the Timer constructor (Timer.cpp:49-90), which throw TimerException.
- The timing of a timeout is not tied to the deadline: a TimedOut wake may be given at any iteration while armed, whatever `triggerTime` holds. The model proves where the deadline lies (DeadlineIsTimeoutLater) but not that the callback runs at, and not before, that deadline.
- Timer.NoFireAfterCancel: proved for a CANCEL queued before the thread's next iteration. A CANCEL posted while a timed wait is already returning ETIMEDOUT is seen only after the timeout is handled (Timer.cpp:212 checks the timeout before the queue), so the callback can still run once after cancel() returns. The model takes every message as posted between iterations, so it does not capture that interleaving.
- Timer.DeadlineIsTimeoutLater: integers are unbounded, so an overflow of `long` in the timeout or of `tv_sec` is not modelled.
- A TimedOut wake while not armed cannot come from `pthread_cond_wait`. The model still accepts one, and it only leaves the timer disarmed.
- The real monotonic clock is left out. Each clock reading is an input, with None for a failed `clock_gettime`.
- Logging is left out. GST_* messages are not modelled beyond the category a log line is reported in.
- `ProcessProtectionMetadata` is not part of this model. Its result, the metadata, is an input.
- The SVP secure-token handle and its raw bytes (`svp_token_size`) are an input. `gst_svp_ext_get_context` and GstBuffer memory mapping are left out. The removal of the meta is reported as a flag.
- BufferParser.ParseBuffer: requires the caps structure to have a name, since the code builds a `std::string` from it.
- The values of a new media segment that the parser does not set are assumed: not encrypted, no key, no pattern, no subsamples, no codec data. MediaSegment is declared outside these files.
- `firebolt::rialto::kUndefinedSize` is taken as 0. Its definition is not part of this model.
- The initial value of m_sourceAttached is taken as false. RialtoMSEBaseSinkPrivate is not part of this model.
- SubtitleSink.ChangeState: takes the parent's text stream count as given when the query succeeds. What `rialto_mse_base_sink_get_n_streams_from_parent` writes, and the initial value 1 it could leave in place, are outside this model.
- GObject and GStreamer registration is left out: `class_init`, `init`, pad set-up and caps set-up. Only the list of MIME types is kept.
- The working directory of each command is not modelled. rm and cmake run in the current directory (build_ut.py:105, 141). make and the test executables (`./tests/ut/...`) run in `<cwd>/<outputDir>` (build_ut.py:151-153, 180-182).
- build_ut.py: processes are not run. `checkAndRemoveFiles`, argparse, the environment variable, `cpu_count` (an input) and output redirection to the results file are left out.
- BuildUt.RunScript: requires one exit code per planned command. Codes for commands that never run are ignored.
- The lcov/genhtml coverage pipeline is left out. The model only says when `generateCoverageReport` is called: Finished(true).
- The file handles are not modelled. The resolved file names are, including whether a results file is used.

## Findings

| source | as written | input that shows it | evidently intended | confidence | as-written member | corrected member |
|---|---|---|---|---|---|---|
| source/BufferParser.cpp:235-245 | `subSampleOffset` starts at 0 and is never advanced, so every subsample is read from bytes 0-5 of the blob | subsample_count 2 with blob `00 01 00 00 00 02 00 03 00 00 00 04` gives (1, 2), (1, 2) | record i read at offset 6·i, giving (1, 2), (3, 4) | not executed | BufferParser.SubsampleOffsetNotAdvanced | BufferParser.DecodeEncodeRoundTrip |

The parser model (`AddVideoSubsamples`, `ParseVideoSpecificPart`, `ParseBuffer`) keeps the code as written.
`DecodeSubsamples` is the corrected decoding. Its round trip with `EncodeSubsamples` is proved in
`DecodeEncodeRoundTrip`.
