# A model of pixelpilot_stripped_rk

pixelpilot_stripped_rk receives H.265 over RTP, decodes it in hardware, shows it on a DRM plane and
optionally records it to MP4. This project models the parts of it where several threads, several resources
or a long run have to stay consistent, and proves what those parts promise.

- `Mailbox` is the one-slot, latest-wins mailbox between the decoder's frame thread and its display thread,
  with the controller that starts and stops them: a state machine over atomic steps, one lock, one condition
  variable, and the frame thread's unlocked read of `running`. Every theorem is about every interleaving.
- `RecorderTimeline` defines, in one go and for a whole history of samples, which writes an MP4 file
  receives and how long each lasts; `VideoRecorder` is the recorder as it is written, one sample behind, and
  every method of it keeps it in step with that definition.
- `Kernel`, `DrmFramebuffer`, `DecoderLedger` and `VideoDecoder` keep the books of what the decoder has
  open. Every acquisition may fail; a release needs the thing to be open and held by the field it is
  released from, so a double or a missed release would not verify.
- `Handoff` is the recorder shared by the appsink thread and the main thread under `recorder_lock`, with the
  bus thread, the stop flag and the joins.
- `MainLoop` is the signal watcher and the main loop: flags without a lock, and a non-atomic `++`.
- `Pipeline` is `PipelineState` between start, stop, poll, enable and disable.
- `Letterbox` places a picture on the screen, `ModeChoice` picks the display mode.
- `Text`, `Config`, `Ini`, `IniReader` and `Cli` are the settings: the file format, the reader that cuts its
  line buffer in place, and the two passes over the command line.

A run (`Runs`) is a list of actions; it is `Stuck` when some action in it cannot happen, so
lemmas that require `.To?` speak about every run that can happen. What the libraries below do is an
input of a step, or a nondeterministic choice.

In one place the code differs from its documentation, and the model follows the code: `README.md:35` calls
`standard` the default recording mode, but `cfg_defaults` sets `sequential` (`src/config.c:62`).

Three promises have limits, and the limits are theorems. When end of stream clears `running` the mailbox is
drained (`Mailbox.EosDrain`); after any clearing of `running`, by whomever, it is drained under every schedule
exactly when `Mailbox.ShutdownDrainsExactly` says. An info change does not clear the mailbox, and whether a
released id can still be committed after it is decided by `Mailbox.InfoChangeEndangersExactly`. And not every
join returns. Cleanup joins the appsink thread whether or not it was told to stop: the joins that can return
are those of `Handoff.JoinReturnsExactly`. Told to stop, that thread may still be offering a packet to the decoder,
which is stopped only after the join: the joins that wait as long as the decoder refuses are those of
`Handoff.FeedWaitsExactly`. And a poll joins a bus thread that has not reported yet, right after a start or a
restart for instance, and waits as long as the bus stays quiet: the polls of `Handoff.PollWaitsExactly`.
`Pipeline` and `MainLoop` carry all of these outcomes.

## Model

| member | source | states |
|---|---|---|
| Mailbox.NoLostWakeUp | src/video_decoder.c:650-704 | In every reachable state a display thread asleep on the condition has nothing to do, or the lock's holder is one step from waking it; for every writer of `running` and `pending_fb`. |
| Mailbox.MailboxOrderAndConservation | src/video_decoder.c:650-704 | Commits are an in-order subsequence of the non-zero publications, and published = committed + in hand + waiting + overwritten, at every step of every run. |
| Mailbox.EveryPictureIsPublished | src/video_decoder.c:645-660 | The ids of the pictures the decoder has answered with are exactly those published so far, in order, and the one about to be published. |
| Mailbox.LastAnswerEndsTheStream | src/video_decoder.c:664-674 | Whatever answer carries the end-of-stream flag (a picture, a skipped one, an info change), under every schedule the frame thread clears `running` within its next seven steps. |
| Mailbox.OtherAnswersReturn | src/video_decoder.c:619-669 | After any other answer the frame thread is back at the decoder once it has taken the steps of its round, unless `running` is cleared meanwhile. |
| Mailbox.CallsAchieve | src/video_decoder.c:854-920 | When start has returned there are both threads if each could be made, and otherwise none, with everything undone; when a stop has returned `running` is FALSE and both threads are out and joined. |
| Mailbox.EosDrain | src/video_decoder.c:664-704 | When the frame thread is the first to clear `running` it has seen end of stream, and the display thread exits with the mailbox empty and, unless the last publication was an id 0, with that very id as the last one committed. |
| Mailbox.ShutdownDrainsExactly | src/video_decoder.c:650-704 | Whoever cleared `running`, before or after the display thread was made: every schedule from there ends with an empty mailbox if and only if the frame thread has no picture left to bring (it is neither fetching nor about to publish one) and nothing is stored or waiting that no display thread will look at. |
| Mailbox.WaitingPictureIsTaken | src/video_decoder.c:679-704 | A waiting picture is taken within the display thread's next five steps, unless an id 0 replaces it or that thread is already leaving; nobody else's steps delay it. |
| Mailbox.CommitOrigin | src/video_decoder.c:683-697 | What is committed is the id of one publication: the one the last take found in the mailbox. |
| Mailbox.InfoChangeEndangersExactly | src/video_decoder.c:630-631 | In the state in which the decoder answers with an info change, whose handling releases every framebuffer: some schedule then has an id published before it about to be committed if and only if the display thread has one in hand, or one waits and that thread (or one still to be made) will look again. |
| Mailbox.AReleasedIdMayBeCommitted | src/video_decoder.c:199-223 | Such a run in full: `release_frame_group` does not clear the mailbox, and an id whose buffers are gone is about to be committed. |
| Mailbox.StopMayLeaveAPicture | src/video_decoder.c:880-920 | One run of the other kind in full: `video_decoder_stop` clears `running` while a picture is about to be published, and it is never shown. |
| Mailbox.ShutdownProgress | src/video_decoder.c:616-704 | Once `running` is FALSE, under every schedule at most `Remaining` steps are left, and a run that cannot go on has both threads out and every join returned. |
| Mailbox.ShutdownNeverStuck | src/video_decoder.c:880-920 | During a shutdown some thread can always step until all is finished, with no spurious wake-up needed. |
| Mailbox.LockHolderCanStep | src/video_decoder.c:650-704 | In every reachable state whoever holds the lock can step: it is never held across something that blocks. |
| Mailbox.AfterClearAtMostTwoCommits | src/video_decoder.c:616-704 | After `running` becomes FALSE there are at most two further commits and at most one further publication. |
| RecorderTimeline.BatchWritesInArrivalOrder | src/video_recorder.c:239-292 | One write per writable sample in arrival order; missing only if the writer did not start or the last write was fatal, and then a prefix. |
| RecorderTimeline.DurationAccounting | src/video_recorder.c:222-236 | Every emitted duration is in [1, 2^32-1], so the total of the accepted writes is at least their count. |
| RecorderTimeline.EveryWriteHasItsLength | src/video_recorder.c:214-237 | Every usable sample is written at its place with the length it claims, read from its own stamps: a stated duration before any distance between time stamps, rounded down to a tick, at most 32 bits; a claim below 11112 ns counts for nothing and the length before is inherited. |
| RecorderTimeline.LengthRepeats | src/video_recorder.c:222-230 | A sample that claims nothing is written with the length of the usable one offered before it. |
| RecorderTimeline.FirstLengthIsNominal | src/video_recorder.c:182-200 | A first sample that claims nothing lasts one frame of the caps' frame rate, or 3000 ticks without a usable one. |
| RecorderTimeline.WritesAreOfUsableSamples | src/video_recorder.c:244-271 | Nothing else is written: every write is of a sample whose buffer is kept, not empty, not above the int range, and mappable. |
| RecorderTimeline.GapIsRoundedDown | src/video_recorder.c:143-148 | A gap between time stamps is emitted as its floor in ticks if and only if it is at least 11112 ns and below the clamp. |
| RecorderTimeline.SteadyDrift | src/video_recorder.c:214-237 | Over n gaps of any sizes in that range: 100000 S <= 9 (pn - p0) < 100000 (S + n), for every n. |
| RecorderTimeline.SteadyGain | src/video_recorder.c:285-288 | In any steady stretch with accepted writes the total grows by the span of the time stamps, each gap rounded down, whatever came before. |
| RecorderTimeline.ReportedDurationDrift | src/video_recorder.c:491-516 | From the first accepted sample d of a steady stream on, the reported media duration never runs ahead of the time stamps counted from d and trails by less than (n-d)*100000/9 + 1 ns, over a run of any length. |
| RecorderTimeline.FlushIsEndOfStream | src/video_recorder.c:441-455 | Flushing settles the last sample exactly as the end of the stream does in the batch definition. |
| RecorderTimeline.IgnoredAfterFailure | src/video_recorder.c:378-381 | After a fatal write or a failed start nothing offered changes what has been written. |
| RecorderTimeline.MadeIsPrefix | src/video_recorder.c:276-289 | The writes made are a prefix of the writes owed, all of them unless the last one made was fatal, and no earlier one was. |
| RecorderTimeline.SettleOne | src/video_recorder.c:405-408 | One more entry settles exactly the sample before it: the step that makes the stream the batch. |
| VideoRecorder.VideoRecorder.ComputeDuration90k | src/video_recorder.c:214-237 | The emitted duration: stated, else from the gap, else the last one, else the nominal one; clamped only on the way out. |
| VideoRecorder.VideoRecorder.EmitPending | src/video_recorder.c:239-292 | Exactly one write when the pending sample is writable and the recorder healthy, none otherwise; the reference is given back either way, and the total counts the accepted writes only. |
| VideoRecorder.VideoRecorder.EnsureWriterInitialized | src/video_recorder.c:160-212 | Starts the writer once, with the nominal duration of the first sample; a failed start is sticky. |
| VideoRecorder.VideoRecorder.SettlePending | src/video_recorder.c:405-408 | The pending sample is written with the duration its successor implies. |
| VideoRecorder.VideoRecorder.HandleSample | src/video_recorder.c:378-439 | Keeps writes, failure flag, last duration, total and references what the batch definition says of the history, whatever fails. |
| VideoRecorder.VideoRecorder.StorePending | src/video_recorder.c:410-438 | The new pending sample never overwrites a held one, and one reference is held exactly while it is valid. |
| VideoRecorder.VideoRecorder.Flush | src/video_recorder.c:441-455 | Afterwards the muxer has been told the batch of the whole history and no reference is held. |
| VideoRecorder.VideoRecorder.Free | src/video_recorder.c:457-489 | As flush, with every acquired reference released and muxer and file closed. |
| VideoRecorder.VideoRecorder.GetStats | src/video_recorder.c:491-516 | Active means not failed; the media duration is the sum of the accepted durations in nanoseconds, while that sum is below 2^64. |
| VideoRecorder.WholeRun | src/video_recorder.c:378-489 | Streaming is batch: for any entries from new to free the muxer is told exactly the batch of what was offered, a prefix of it after a fatal write, with acquired equal to released. |
| VideoRecorder.VideoRecorder.constructor | src/video_recorder.c:316-375 | A new recorder is in step with the empty history. |
| DecoderLedger.RecordedOnce | src/video_decoder.c:199-223 | No resource is recorded by two fields, and none that is recorded belongs to others. |
| DecoderLedger.NothingLeft | src/video_decoder.c:810-852 | When no field records anything the books balance if and only if only what belongs to others is open. |
| DrmFramebuffer.CreateArgbFb | src/drm_fb.c:32-82 | All or nothing at every stage: three new resources held, or none and the world unchanged; the former when nothing is refused. |
| DrmFramebuffer.DestroyDumbFb | src/drm_fb.c:84-99 | Releases exactly what the struct records and clears it. |
| VideoDecoder.VideoDecoder.ReleaseFrameGroup | src/video_decoder.c:199-223 | Gives back every handle, descriptor and framebuffer of the table once; without a group it touches nothing, whatever the map contains. |
| VideoDecoder.VideoDecoder.ResetFrameMap | src/video_decoder.c:191-197 | Every slot is empty afterwards, with descriptor -1 and not 0. |
| VideoDecoder.VideoDecoder.FillSlot | src/video_decoder.c:551-604 | A slot whose acquisition fails at any stage records exactly what was acquired, no other slot changes, and when nothing is refused the slot has handle, descriptor and framebuffer. |
| VideoDecoder.VideoDecoder.FillSlots | src/video_decoder.c:544-605 | Every slot is tried whatever became of the others: each for which nothing is refused is complete. |
| VideoDecoder.VideoDecoder.ExportSlot | src/video_decoder.c:561-587 | The exported descriptor is closed unless the group kept that very one. |
| VideoDecoder.VideoDecoder.SetupExternalBuffers | src/video_decoder.c:523-614 | For any pattern of failures over any number of info changes, open and recorded stay the same resources; and with a known format and a group every slot is filled for which nothing is refused. |
| VideoDecoder.VideoDecoder.SetupBlackBackground | src/video_decoder.c:276-414 | The plane is lit with its framebuffer recorded, or nothing is held; it is lit when nothing is refused. |
| VideoDecoder.VideoDecoder.TeardownBackground | src/video_decoder.c:416-442 | The background is given back once, however often this is called. |
| VideoDecoder.VideoDecoder.Init | src/video_decoder.c:713-808 | Ready, or everything given back, at every point of failure, whatever the fields contained before; ready with the background lit when nothing is refused. |
| VideoDecoder.VideoDecoder.InitOnCard | src/video_decoder.c:742-808 | Past the card's descriptor every failure goes through deinit and leaves nothing. |
| VideoDecoder.VideoDecoder.Start | src/video_decoder.c:854-878 | Two threads or none, and two when nothing is refused; refused without init, and no effect when running. A thread of an earlier start that was never joined is lost, exactly that, and stays open for good. |
| VideoDecoder.VideoDecoder.Stop | src/video_decoder.c:880-920 | Both threads are joined, each once, and the books still balance. |
| VideoDecoder.VideoDecoder.Deinit | src/video_decoder.c:810-852 | From any consistent state, a second entry included: nothing is held, nothing is released twice, and nothing a thread works with before that thread is joined. |
| VideoDecoder.VideoDecoder.TearDown | src/pipeline.c:450-461 | The chain stop, deinit, free (which enters deinit again) releases everything once. |
| VideoDecoder.WholeLife | src/pipeline.c:327-349 | Init, start, any number of info changes and the teardown chain, with any failures: exactly what was open before is open afterwards. |
| VideoDecoder.VideoDecoder.constructor | src/video_decoder.c:114-116 | A zero-filled decoder owns nothing, although its descriptor reads 0. |
| Handoff.EveryRecorderLivesLegally | src/pipeline.c:122-129 | In every interleaving every recorder is made, installed, taken out and freed in that order, or freed unused; every sample and every statistics read goes to the installed one; each is in exactly one place. |
| Handoff.SegmentsAreContiguous | src/pipeline.c:122-129 | The samples one recorder receives are a contiguous segment of the eligible samples. |
| Handoff.EverySampleIsHandedOver | src/pipeline.c:122-129 | The eligible samples pulled are those handed over, each once, and one more while the appsink thread has it; and every request for statistics consults the recorder once. |
| Handoff.CallsAchieve | src/pipeline.c:219-538 | What has come about when a call has returned: a recorder installed after enable and none after disable; everything down after a stop, after a poll that found the bus thread gone and after a failed start; the pipeline up with both threads after a start that succeeded. |
| Handoff.AppsinkLeavesOnlyWhenTold | src/pipeline.c:99-108 | The appsink thread is out only when a stop was requested or the decoder does not run. |
| Handoff.PollLooks | src/pipeline.c:472-486 | A poll lets a watched pipeline alone and notices a bus thread that has ended or not reported. |
| Handoff.NothingAfterFree | src/pipeline.c:525-538 | After a recorder is freed nothing uses it, frees it again or installs it. |
| Handoff.IdleOwnsOnlyTheInstalled | src/pipeline.c:498-523 | Between calls every recorder made has been freed, except exactly the one installed. |
| Handoff.HandoffNeverDeadlocks | src/pipeline.c:463-469 | In no interleaving are all threads stuck, and the lock's holder can always step. |
| Handoff.JoinReturns | src/pipeline.c:368-373 | Joining an appsink thread that has been told to stop: whatever the others do it takes at most seven more steps beside those spent on packets the decoder refuses, can always take the next, and then the main thread goes on. |
| Handoff.JoinReturnsExactly | src/pipeline.c:393-496 | Exactly which joins of a live appsink thread can return at all: in a stop, and in a poll after a bus thread that had a bus. After a start that could not make the bus thread, and in a poll after a bus thread that found no bus, no schedule lets it return. |
| Handoff.FeedWaitsExactly | src/video_decoder.c:939-945 | Exactly how long such a join may wait: without bound if and only if the appsink thread holds a packet, or may still pull one, while the decoder runs, for the decoder may refuse it any number of times and is stopped only after the join; otherwise at most seven steps of that thread, whatever they are spent on. |
| Handoff.StopWhileFeeding | src/pipeline.c:393-416 | A stop that comes while a packet is being offered is of the waiting kind. |
| Handoff.FailingStartHangs | src/pipeline.c:355-365 | The start that cannot make the bus thread, as a run: whatever happens afterwards, it is still in that join. |
| Handoff.PollAfterNoBus | src/pipeline.c:154-163 | The poll after a bus thread that found no bus, as a run: it waits for an appsink thread nobody has told to stop. |
| Handoff.BusJoinReturns | src/pipeline.c:375-391 | The join of the bus thread returns: at most three more steps beside those spent on messages of no interest. |
| Handoff.PollWaitsExactly | src/pipeline.c:472-486 | Exactly which polls may wait without bound for the bus thread: those that join it before it has left its loop, as long as the bus stays quiet. |
| Handoff.PollJoinReturns | src/pipeline.c:204-216 | A poll that joins a bus thread past its loop returns from that join after at most one step of it, under every schedule. |
| Handoff.PollRightAfterStart | src/pipeline.c:165-167 | A poll right after a start, before the bus thread's first step, is of the waiting kind. |
| MainLoop.EveryRequestIsAnswered | src/main.c:243-300 | A recorded SIGUSR1, SIGUSR2 or SIGHUP is followed, within the main thread's next sixteen steps, by its action starting after it, unless the loop is left; a recorded exit request leaves it. |
| MainLoop.EverySignalIsRecorded | src/main.c:132-176 | Every signal delivered is recorded once as the request it stands for: SIGUSR1 start, SIGUSR2 stop, SIGHUP restart, SIGINT and SIGTERM exit; one more while the watcher is between load and store. |
| MainLoop.RestartsAreCarriedOut | src/main.c:280-292 | Every restart begun stops the old pipeline and starts the new one, once; the pipeline runs exactly as restarts and ends tell, and has a recorder exactly if one could be made since it began or recording was last stopped. |
| MainLoop.NothingFailsByItself | src/main.c:237-300 | When nothing fails the pipeline is up and has a recorder exactly when recording is wanted, at every moment but inside a restart, and the loop is left only after SIGINT or SIGTERM. |
| MainLoop.WaitingPollEndsTheLoop | src/main.c:294-299 | A poll that had to wait ends the loop: no start, stop or restart request is acted upon after it, whenever it was recorded. |
| MainLoop.NoActionWithoutRequest | src/main.c:145-169 | At most as many actions of a kind begin as requests of it were recorded, despite the non-atomic increment. |
| MainLoop.RecorderFollowsConfiguration | src/main.c:237-299 | Across restarts: a recorder only in a running pipeline with recording enabled; enabled is what the later handled request says; a wanted recorder is missing only if the latest try to make one failed. |
| MainLoop.OwedIsPaid | src/main.c:252-292 | From any state, an owed action begins within its distance in main-thread steps, whatever the watcher does meanwhile. |
| Pipeline.PipelineState.Start | src/pipeline.c:219-366 | RUNNING with every handle set, or STOPPED with every one NULL; refused with no change unless stopped; started when nothing is refused; it never returns when it has made the appsink thread and cannot make the bus thread. |
| Pipeline.PipelineState.Launch | src/pipeline.c:313-358 | From assembled to running; a failure leaves consistent books for cleanup. |
| Pipeline.PipelineState.Assemble | src/pipeline.c:249-306 | Bin and receiver are recorded, or lost as locals, and nothing else is. |
| Pipeline.PipelineState.Cleanup | src/pipeline.c:423-470 | It returns exactly when there is no appsink thread to wait for, or that thread has been told to stop and the decoder does not keep refusing its packet; then every handle is NULL, everything was released once, and nothing while a thread or the receiver works with it. |
| Pipeline.PipelineState.Stop | src/pipeline.c:393-421 | It returns exactly unless the decoder keeps refusing the appsink thread's packet; then STOPPED with nothing held, or no effect when already stopped. |
| Pipeline.PipelineState.Poll | src/pipeline.c:472-496 | Exactly when it does which: nothing happens without a bus thread or while it runs; STOPPED and nothing held when that thread ends having had a bus and the decoder does not refuse; otherwise it waits for ever, in which join and for whom. |
| Pipeline.PipelineState.EnableRecording | src/pipeline.c:498-523 | Success, which comes with a path when nothing is refused, means a recorder is installed; one that was there stays and the new one is freed. |
| Pipeline.PipelineState.DisableRecording | src/pipeline.c:525-538 | No recorder is installed, and exactly that one was freed. |
| Pipeline.Perform | src/pipeline.c:219-538 | Which of the five calls can fail to return, in which join, and on what findings. |
| Pipeline.AnySession | src/main.c:225-317 | After any sequence of calls, then stop and disable: if all return, no thread, decoder or recorder is left, and only what a failed start lost as a local; otherwise the session is in the join of the first call that does not return. |
| Letterbox.InsideFillingCentred | src/video_decoder.c:461-499 | The rectangle lies inside the mode, fills one direction and is centred in the other to within a pixel. |
| Letterbox.AspectWithinHalfPixel | src/video_decoder.c:470-484 | The aspect is off by at most half a pixel, unless raised to the one-pixel minimum. |
| Letterbox.UpperClampsNeverFire | src/video_decoder.c:474-482 | The clamps to the mode's size never change the result. |
| Letterbox.DependsOnRatioOnly | src/video_decoder.c:467-484 | Sources of the same ratio are placed alike. |
| Letterbox.FitInIntegers | src/video_decoder.c:467-499 | The divisions and roundings of the source are an integer formula. |
| Letterbox.FitIsIdempotent | src/video_decoder.c:461-499 | A picture already of the fitted size stays where it is. |
| Letterbox.Plane.Place | src/video_decoder.c:450-499 | Remembers the last non-zero size, falls back to it or to the mode, and places by it. |
| ModeChoice.BetterIsStrictWeakOrder | src/drm_modeset.c:67-83 | `better_mode` is irreflexive, asymmetric, transitive, with transitive ties, and ties are exactly equal ranks. |
| ModeChoice.BetterIsLexicographic | src/drm_modeset.c:67-83 | It compares refresh, width times height, preferred, clock, in that order. |
| ModeChoice.RefreshIsNearest | src/drm_modeset.c:56-65 | A reported rate is taken as it is, a computed one is the nearest whole number of Hz, and either fits an int. |
| ModeChoice.BestMode | src/drm_modeset.c:114-119 | The loop returns an undominated mode, the earliest among equals. |
| ModeChoice.ChoiceIsUnique | src/drm_modeset.c:114-119 | Only one mode of a list answers that description. |
| ModeChoice.ChoiceIsFastest | src/drm_modeset.c:114-119 | No mode of the list refreshes faster, and none as fast has more pixels. |
| ModeChoice.ChooseOutput | src/drm_modeset.c:103-166 | The first usable connector, with the choice among its own modes; none if and only if none is usable. |
| Text.StripIs | src/config_ini.c:15-23 | Stripping takes off exactly the padding. |
| Text.SameLetter | src/config_ini.c:43-49 | Two characters are the same but for case exactly when they are equal or one letter in its two forms. |
| Text.CharacterClasses | src/config_ini.c:15-23 | White space and digits, character by character. |
| Text.NumbersTaken | src/config_ini.c:25-37 | White space, a sign or none, and decimal digits are read as the number they write, within 64 bits and cut to an int. |
| Text.NothingElseTaken | src/config_ini.c:31-34 | Nothing else is taken for a number. |
| Text.CopiedIsCut | src/config_ini.c:55-66 | What is longer than its field loses exactly what does not fit. |
| Text.DecimalParses | src/config_ini.c:25-37 | Every int written in decimal is read back as itself. |
| Text.Truncated | src/config_ini.c:35 | The cast to int keeps the value modulo 2^32, in range. |
| Config.ModeParses | src/config.c:211-235 | The printed name of a recording mode is read back as that mode. |
| Config.RecordKeysAgree | src/config_ini.c:92-139 | A key in the [record] section acts exactly as record.key does anywhere else. |
| Config.WordsTaken | src/config.c:202-222 | Exactly which words mean which mode and which truth value. |
| Config.SecondNames | src/config_ini.c:73-100 | The second names of keys do what the first do. |
| Config.OtherSectionsAreGlobal | src/config_ini.c:114-141 | Sections other than [record] are like none at all. |
| Config.UnknownKeysChangeNothing | src/config_ini.c:111-140 | A key that is none of the names changes nothing. |
| Config.MalformedChangesNothing | src/config_ini.c:77-109 | A malformed number, truth value or mode leaves the settings as they are. |
| Config.LongStringsAreCut | src/config_ini.c:55-75 | Card path, connector and output path keep 63, 31 and 4095 characters. |
| Config.NamesIgnoreCase | src/config_ini.c:68-141 | Section and key names differing in case only are the same. |
| Ini.ParseWritten | src/config_ini.c:158-224 | Any padding and any remark around a statement: the line says the statement. |
| Ini.BrokenLinesSayNothing | src/config_ini.c:183-217 | An unclosed header, a line without an equals sign and an entry without a key are passed over. |
| Ini.LongLinesAreCut | src/config_ini.c:155-158 | A line longer than the buffer is read in pieces of 511 characters. |
| Ini.LoadFollowsLayouts | src/config_ini.c:143-228 | A file does what its lines say, in order. |
| Ini.EveryLayoutLoads | src/config_ini.c:143-228 | The documented file with any padding, remarks and blank lines loads the settings it was written for, whatever was configured before. |
| Ini.RoundTrip | src/config_ini.c:143-228 | Rendering settings in the documented layout and loading them gives them back. |
| IniReader.Trim | src/config_ini.c:15-23 | In place: the string left is the stripped one, and nothing outside it changes. |
| IniReader.Parse | src/config_ini.c:160-217 | Cutting the buffer with NULs finds the statement the line says. |
| IniReader.Fgets | src/config_ini.c:158 | A line, or as much of it as fits, and a NUL. |
| IniReader.LoadFile | src/config_ini.c:143-228 | The loop over one reused buffer computes what the file says. |
| Cli.ParseCli | src/config.c:100-195 | The two loops compute the two passes. |
| Cli.FilesThenOptions | src/config.c:105-191 | For well-formed groups: the defaults, then the files in order, then the options in order; help, errors and values as they come. |
| Cli.ConfigGroupMoves | src/config.c:107-130 | Moving a --config group past any other group changes nothing. |
| Cli.OptionsWin | src/config.c:125-191 | A field some option sets does not depend on the files at all, and any other field is what the files made it. |
| Cli.OptionsRoundTrip | src/config.c:125-191 | Settings written out as options come back whatever files stand among them; only `gst_log`, which no option clears, may also come from a file. |
| Cli.NoOptionsNoChange | src/config.c:46-63 | Without options the settings are the documented defaults. |
| Cli.LastSwitchDecides | src/config.c:163-183 | The last switch decides: recording on, with a path or without, or off; the log on. |
| Cli.BadValueFails | src/config.c:143-177 | An option whose value is no number, or no recording mode, makes the command line fail. |
| Cli.BadEndFails | src/config.c:113-190 | So does a last word that is no option, or an option left without its value. |
| Cli.PathsAreCut | src/config.c:80-119 | An empty path loads nothing, and one too long is cut before it is opened. |
| Cli.HelpIsAnswered | src/config.c:107-123 | Exactly when help is the answer: some group asks for it, or has a value that looks as if it did, and every configuration file before that group loads. |
| Cli.ValueMistakenForHelp | src/config.c:107-112 | An instance: a card path called --help, which the options themselves would take, gets the help text. |
| Cli.WrittenSettingsUnderOptions | src/config.c:80-89 | A file written in the documented layout comes back through --config, under the options given. |

## Left out

- The decoder, display, streaming and muxing libraries themselves, sockets, files and clocks: their results are inputs or nondeterministic choices. That the decoder's get-frame call returns is assumed.
- IEEE rounding of doubles in the letterbox and refresh arithmetic: exact reals are used.
- Letterbox.InsideFillingCentred: sizes of zero are excluded for the mode; the source divides by them.
- Letterbox.Plane.Place: the assignments to `src_w` and `src_h` when buffers are set up or released (`src/video_decoder.c:221-222`, `src/video_decoder.c:610-611`) are not part of it.
- ModeChoice.RefreshIsNearest: timings for which C leaves the computed rate undefined (the product of the totals or the cast to int overflows, with no rate reported) are excluded.
- ModeChoice.BestMode: lists with such a timing are excluded.
- ModeChoice.ChooseOutput: connectors with such a timing are excluded.
- The frame thread's own commit of the first slot in an info change is not part of `Mailbox`; whether the kernel hands out a released id again is not either.
- VideoDecoder.VideoDecoder.SetupExternalBuffers: the new source size and the commit of the first slot (`src/video_decoder.c:610-612`) are not part of it; it keeps the books only.
- VideoDecoder.VideoDecoder.constructor: between allocation and init the descriptor reads 0, so deinit is not called there; the pipeline calls init next, and frees after a failed init only.
- Pipeline.PipelineState.Assemble: elements made after the bin, and the caps, are not tracked one by one; what a failing start loses before it is recorded stays lost, as in the source.
- VideoRecorder.VideoRecorder.GetStats: bytes written, elapsed time and the output path are not part of it.
- MainLoop.EveryRequestIsAnswered: calls made by the main thread other than the poll and the stop of a restart are taken to return; in a start the one exception is that of `Handoff.FailingStartHangs`, where GLib aborts instead. Which of a start and a stop request came later is not preserved within one round of the loop, and is not claimed; a flag counter does not overflow.
- The order in which the watcher ends after the main loop, the timed join that may force the process out, and the PID file.
- Which thread sees a store to a flag when: steps are sequentially consistent.
- Ini.RoundTrip: `config_path` is not in the file; strings with comment characters, newlines, NULs or outer white space, and an output path longer than its line, cannot be written in it.
- Cli.FilesThenOptions: option groups only, and no value that reads --config, after which the first pass takes the next word for a file; words that belong to no group lead to an error or to the help text as the two passes say.
- The environment variable for GStreamer's log, verbosity, usage text and log messages.
- Names and time stamps of output files, directories, and the bytes written through the muxer's callback.
- The bytes fed to the decoder and the vectorised copy, the framebuffer's fill loop, retry loops on EINTR, and the end-of-stream packet: easy members beside the rest.
- Waiting in `stop_bus_thread` before the join, the receive loop of the UDP receiver, and that pulling a sample, handling it and one offer of a packet return.
