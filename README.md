# USemLog core, modelled in Dafny

This project models the core of USemLog, a semantic logging plugin for a game
engine. It covers five parts:

- **Individual manager** (`individuals.dfy`). This is the cache of individual
  components and individuals, with two id-to-object maps. Each root individual
  is sorted into one of three buckets: skeletal, robot, or childless. On top of
  the cache sits the Init / Load / Connect flag machine with its resets.
- **Logger manager** (`runtime.dfy`). This is the Init → Start → Finish
  lifecycle. It includes the once-only create-episode and finish-episode
  requests to the KnowRob service, audio start/stop, EndPlay, the destructor
  and the user toggle. Requests and sub-logger calls are recorded in a ghost
  call log.
- **Perceivable individual** (`perceivable.dfy`). This is the Init / Load chain
  over a base individual, and the material-slot array switched between the
  visual-mask material and the original materials. It also covers the visual
  mask and calibrated visual mask fields, and their import and export through
  the owner's tag.
- **Slide and pouring events** (`owl_events.dfy`, `slide_event.dfy`,
  `pouring_event.dfy`). These are the OWL event individuals the events become
  and the experiment document they add themselves to. They also cover the
  context, tooltip and info strings, and the sub-action request a slide event
  sends to KnowRob.
- **World-state writer** (`world_state.dfy`). This is the delta filter over
  the three entity pools, the entity document layout, and the rule that a
  record is inserted only when something was emitted.

`text.dfy` holds the printf-style text the events produce:

- `%lld` of a `uint64`, with its parser and round trip;
- fields joined by a separator, with the split that reads them back;
- single-quoted field lists.

`wrappers.dfy` holds `Option`.

The classes keep the fields the source updates in place, and their methods
update them. Where a class's behaviour is a state machine, each method is
proved equal to a pure step function on a snapshot of its fields. The
properties are proved about those functions:

- invariants kept by every step and by any sequence of steps;
- lookups after add and remove;
- round trips of the printed strings.

Engine objects are abstracted to the values the code reads from them:

- ids and classes;
- validity;
- poses;
- tag values;
- whether the base class is initialised or loaded, and what its Init and Load return.

## Model

| member | source | states |
|---|---|---|
| Individuals.IndividualManager.SetIsInit | Source/USemLog/Private/Individuals/SLIndividualManager.cpp:171-186 | the init flag takes the new value, and clearing a set init flag also clears loaded, so loaded ⇒ init is kept |
| Individuals.IndividualManager.SetIsLoaded | Source/USemLog/Private/Individuals/SLIndividualManager.cpp:189-199 | the loaded flag takes the new value; nothing else changes |
| Individuals.IndividualManager.SetIsConnected | Source/USemLog/Private/Individuals/SLIndividualManager.cpp:202-212 | the connected flag takes the new value; nothing else changes |
| Individuals.IndividualManager.InitReset | Source/USemLog/Private/Individuals/SLIndividualManager.cpp:156-162 | afterwards the cache is empty and neither init nor loaded is set, but the connected flag is left as it was |
| Individuals.IndividualManager.LoadReset | Source/USemLog/Private/Individuals/SLIndividualManager.cpp:165-168 | afterwards loaded is false |
| Individuals.IndividualManager.HasCache | Source/USemLog/Private/Individuals/SLIndividualManager.cpp:313-320 | true iff anything besides the world-state buckets is cached; without a cache no id resolves to an individual or a component |
| Individuals.IndividualManager.ClearCache | Source/USemLog/Private/Individuals/SLIndividualManager.cpp:322-339 | every array and map of the cache is empty, so HasCache() is false; the flags are untouched |
| Individuals.IndividualManager.Init | Source/USemLog/Private/Individuals/SLIndividualManager.cpp:73-87 | Init(false) on an initialised manager returns true and changes nothing; otherwise the cache (emptied first by reset) is rebuilt by InitImpl, whose outcome is the init flag; loaded ⇒ init holds afterwards |
| Individuals.IndividualManager.Load | Source/USemLog/Private/Individuals/SLIndividualManager.cpp:90-112 | a loaded manager (without reset) returns true unchanged; an uninitialised one is initialised first and fails if that fails; loaded is set exactly when every cached component and individual reports loaded |
| Individuals.IndividualManager.Connect | Source/USemLog/Private/Individuals/SLIndividualManager.cpp:115-123 | an already connected manager returns true and changes nothing; otherwise it is connected exactly when there is a cache to bind |
| Individuals.IndividualManager.InitImpl | Source/USemLog/Private/Individuals/SLIndividualManager.cpp:216-235 | the outcome and new cache equal InitImplOutcome of the old cache and the world's components |
| Individuals.InitImplCachesWorld | Source/USemLog/Private/Individuals/SLIndividualManager.cpp:218-234 | with a non-empty cache InitImpl fails and changes nothing; from an empty cache it caches exactly the live components of the world, in order, and succeeds iff there is one |
| Individuals.IndividualManager.LoadImpl | Source/USemLog/Private/Individuals/SLIndividualManager.cpp:238-262 | true iff every cached component and every cached individual is loaded; nothing changes |
| Individuals.IndividualManager.AddToCache | Source/USemLog/Private/Individuals/SLIndividualManager.cpp:342-391 | the new cache is WithComponent of the old: the component appended, its individual and children appended and mapped to themselves and to the component under their case-folded ids, so an id equal up to case to a cached one replaces that entry as TMap::Add does, and the root put in the bucket of its class |
| Individuals.LookupAfterAdd | Source/USemLog/Private/Individuals/SLIndividualManager.cpp:126-153 | after adding, every id equal up to case to an id of the component's individual and children finds that component and its owner actor, and its own individual when the ids are distinct up to case (an added id replaces a case variant already cached); every other id finds what it found before, so an id never added finds nothing |
| Individuals.RootInExactlyOneBucket | Source/USemLog/Private/Individuals/SLIndividualManager.cpp:359-370 | a root individual not yet in any bucket is, after adding, in the bucket of its class and in no other |
| Individuals.IndividualManager.RemoveFromCache | Source/USemLog/Private/Individuals/SLIndividualManager.cpp:394-436 | the result is true iff the component was cached (corrected, see Findings); the new cache is WithoutComponent of the old, which removes the case-folded keys of the component's ids, so a cached case variant of those ids is removed too, as TMap::Remove does |
| Individuals.LookupAfterRemove | Source/USemLog/Private/Individuals/SLIndividualManager.cpp:401-433 | after removing, the component is not cached, no id equal up to case to an id of its individual and children is in either map, every other id keeps its entry, and the root leaves the bucket of its class while the other buckets are unchanged |
| Individuals.RemoveUndoesAdd | Source/USemLog/Private/Individuals/SLIndividualManager.cpp:342-436 | removing a freshly added component (no id equal up to case to one of its ids was cached) gives back exactly the cache before the add |
| Individuals.IndividualManager.OnIndividualComponentDestroyed | Source/USemLog/Private/Individuals/SLIndividualManager.cpp:439-442 | the destroyed component is removed from the cache as RemoveFromCache does, and is no longer cached afterwards |
| Individuals.IndividualOf | Source/USemLog/Private/Individuals/SLIndividualManager.cpp:126-133 | an individual is found iff the id's case-folded key is in the id-to-individual map, so ids equal up to ASCII case find the same entry |
| Individuals.ComponentOf | Source/USemLog/Private/Individuals/SLIndividualManager.cpp:136-143 | a component is found iff the id's case-folded key is in the id-to-component map |
| Individuals.ActorOf | Source/USemLog/Private/Individuals/SLIndividualManager.cpp:146-153 | an actor is found iff a component is, and it is that component's owner |
| Individuals.LookupIgnoresCase | Source/USemLog/Private/Individuals/SLIndividualManager.cpp:136-153 | after caching a component whose individual has id "ab", the ids "AB", "aB" and "Ab" find that component and its owner, as FString keys compare ignoring case |
| Individuals.RemovedAsWrittenForUncached | Source/USemLog/Private/Individuals/SLIndividualManager.cpp:396-400 | as written, a component that was never cached is removed zero times, and zero compared with INDEX_NONE still reports a removal |
| Runtime.SubInit | Source/USemLog/Private/Runtime/SLLoggerManager.cpp:168-222 | a sub-logger reports initialised iff it is enabled, set up, not running independently and its Init succeeds; Init is called iff it is enabled, set up and not independent; getting the symbolic logger hands it the KnowRob client (cpp:473-500), whether it runs independently or not |
| Runtime.InitStep | Source/USemLog/Private/Runtime/SLLoggerManager.cpp:160-243 | an initialised manager is unchanged; otherwise the manager always ends initialised, and each reported sub-logger flag holds iff that logger is enabled, set up, not independent and its Init succeeds |
| Runtime.LoggerManager.Init | Source/USemLog/Private/Runtime/SLLoggerManager.cpp:160-243 | the new state and the two reported flags are InitStep's; the flags, declared without initialiser in the source, start out false |
| Runtime.CreateEpisodeOnce | Source/USemLog/Private/Runtime/SLLoggerManager.cpp:262-279 | a create-episode request is appended only when NEEM creation is on and no episode was created; afterwards the episode counts as created iff creation is on or it already was |
| Runtime.StartStep | Source/USemLog/Private/Runtime/SLLoggerManager.cpp:246-329 | the episode is created before the guards; a started or uninitialised manager stops there; otherwise it ends started iff every enabled sub-logger reports started |
| Runtime.LoggerManager.Start | Source/USemLog/Private/Runtime/SLLoggerManager.cpp:246-329 | the new state is StartStep of the old |
| Runtime.AudioStartStep | Source/USemLog/Private/Runtime/SLLoggerManager.cpp:331-357 | the create-episode block, then the record-audio request |
| Runtime.LoggerManager.AudioStart | Source/USemLog/Private/Runtime/SLLoggerManager.cpp:331-357 | the new state is AudioStartStep of the old |
| Runtime.AudioStopStep | Source/USemLog/Private/Runtime/SLLoggerManager.cpp:359-376 | a created, unfinished episode is finished with one request and marked finished; the stop-audio request is always sent |
| Runtime.LoggerManager.AudioStop | Source/USemLog/Private/Runtime/SLLoggerManager.cpp:359-376 | the new state is AudioStopStep of the old |
| Runtime.FinishStep | Source/USemLog/Private/Runtime/SLLoggerManager.cpp:379-412 | nothing happens when finished or not both initialised and started; otherwise the enabled sub-loggers are finished and the manager ends finished, not started and not initialised |
| Runtime.LoggerManager.Finish | Source/USemLog/Private/Runtime/SLLoggerManager.cpp:379-412 | the new state is FinishStep of the old |
| Runtime.LoggerManager.EndPlay | Source/USemLog/Private/Runtime/SLLoggerManager.cpp:110-130 | the new state is EndPlayStep of the old: when not finished, Finish, then AudioStop, then the manager's own finish-episode check |
| Runtime.AudioStopSettlesEpisode | Source/USemLog/Private/Runtime/SLLoggerManager.cpp:119-127 | after AudioStop no created episode is unfinished, so EndPlay's own finish-episode request never fires |
| Runtime.LoggerManager.Destroy | Source/USemLog/Private/Runtime/SLLoggerManager.cpp:48-54 | the destructor runs Finish only while not finished and not a template |
| Runtime.ToggleStep | Source/USemLog/Private/Runtime/SLLoggerManager.cpp:427-443 | starts when initialised and not started, finishes when started and not finished, and otherwise changes nothing |
| Runtime.LoggerManager.UserInputToggleCallback | Source/USemLog/Private/Runtime/SLLoggerManager.cpp:427-443 | the new state is ToggleStep of the old |
| Runtime.StepKeepsInv | Source/USemLog/Private/Runtime/SLLoggerManager.cpp:246-443 | every entry point keeps the invariant: each episode request counted once per flag, finish only after create, started ⇒ initialised, sub-loggers finished once per finish |
| Runtime.RunKeepsInv | Source/USemLog/Private/Runtime/SLLoggerManager.cpp:110-443 | any sequence of entry points keeps the invariant |
| Runtime.EpisodeRequestsAtMostOnce | Source/USemLog/Private/Runtime/SLLoggerManager.cpp:262-279 | from a fresh manager, over any sequence of entry points, the create- and finish-episode requests are each sent at most once, a finish request only after a create request, and a started manager is initialised |
| Runtime.FinishedStaysFinished | Source/USemLog/Private/Runtime/SLLoggerManager.cpp:381-385 | once finished, a manager stays finished and the Finish body is a no-op at every later point, so it takes effect at most once |
| Runtime.ToggleAfterFinish | Source/USemLog/Private/Runtime/SLLoggerManager.cpp:429-442 | after Finish (initialised cleared) the toggle changes nothing, so it cannot start the manager again |
| Perceivable.PerceivableIndividual.constructor | Source/USemLog/Private/Data/SLPerceivableIndividual.cpp:14-30 | a new individual is neither initialised nor loaded, the mask is off, and both mask fields are empty |
| Perceivable.PerceivableIndividual.IsInit | Source/USemLog/Private/Data/SLPerceivableIndividual.cpp:69-72 | true iff initialised both here and in the base; an initialised individual holds the owner's mesh component and a dynamic material |
| Perceivable.PerceivableIndividual.Init | Source/USemLog/Private/Data/SLPerceivableIndividual.cpp:47-66 | reset clears the local flag first; an individual initialised here and in the base returns true unchanged; otherwise the base is initialised, a base whose Init fails fails the call, and after a base success InitImpl runs again, re-creating the dynamic material without a colour when the mask asset exists and recapturing the original materials; the dynamic material is otherwise unchanged; the result equals IsInit() afterwards |
| Perceivable.PerceivableIndividual.InitImpl | Source/USemLog/Private/Data/SLPerceivableIndividual.cpp:262-295 | succeeds iff the mask asset exists and the owner has a static mesh component, and then captures that component and its current materials as the originals |
| Perceivable.PerceivableIndividual.IsLoaded | Source/USemLog/Private/Data/SLPerceivableIndividual.cpp:105-108 | true iff loaded both here and in the base; a loaded individual holds the owner's mesh component and a dynamic material |
| Perceivable.PerceivableIndividual.Load | Source/USemLog/Private/Data/SLPerceivableIndividual.cpp:75-102 | an individual loaded here and in the base (without reset) returns true unchanged; one not initialised fails and nothing but the reset of the local flag changes; otherwise the base is loaded, a failed base Load with reset re-initialises (recapturing the originals), and the call succeeds iff the visual mask was non-empty and that re-initialisation succeeds; on success the dynamic material takes the mask colour, an empty mask is filled from the tag as SetVisualMask with its default arguments does (a non-empty imported mask clears the calibrated mask and colours the dynamic material, and the mask slots are re-applied when the mask is on and the individual was loaded); on every failure path the dynamic material is the one Init left (re-created without a colour by a re-initialisation that reaches InitImpl with the mask asset, otherwise unchanged) unless the import coloured it; the mask flag and the tag never change, and a success after a failed base Load leaves IsLoaded() false |
| Perceivable.PerceivableIndividual.LoadImpl | Source/USemLog/Private/Data/SLPerceivableIndividual.cpp:298-321 | fails whenever the visual mask was empty on entry, even though the mask is then imported from the tag (clearing the calibrated mask, colouring the material, and re-applying the mask slots when the mask is on and loaded); otherwise the dynamic material takes the mask colour and the slots stay; the mask flag and the originals never change |
| Perceivable.PerceivableIndividual.ApplyVisualMaskMaterials | Source/USemLog/Private/Data/SLPerceivableIndividual.cpp:137-155 | changes nothing unless loaded; when the mask is off or reload is asked, every slot holds the mask material and the mask is on |
| Perceivable.PerceivableIndividual.ApplyOriginalMaterials | Source/USemLog/Private/Data/SLPerceivableIndividual.cpp:158-177 | when loaded with the mask on, slot i holds original material i for every i (the slots captured at init) and the mask is off; otherwise nothing changes |
| Perceivable.PerceivableIndividual.ToggleMaterials | Source/USemLog/Private/Data/SLPerceivableIndividual.cpp:180-190 | succeeds iff loaded, and then flips the mask flag and leaves either the originals or all-mask slots; the originals, the dynamic material, the tag and both masks never change, so mask-then-original restores the slots captured at init |
| Perceivable.PerceivableIndividual.SetVisualMask | Source/USemLog/Private/Data/SLPerceivableIndividual.cpp:193-212 | the mask is stored and GetVisualMask returns it; the calibrated mask is cleared exactly when the value changed and clearing is asked; a mask that is on is re-applied when reload is asked |
| Perceivable.PerceivableIndividual.ApplyVisualMaskColorToDynamicMaterial | Source/USemLog/Private/Data/SLPerceivableIndividual.cpp:215-223 | succeeds iff the dynamic material exists and the mask is non-empty, and then the material's colour is the mask |
| Perceivable.PerceivableIndividual.SetCalibratedVisualMask | Source/USemLog/Classes/Data/SLPerceivableIndividual.h:61-63 | GetCalibratedVisualMask returns the input afterwards, HasCalibratedVisualMask holds iff it is non-empty, and no other field changes |
| Perceivable.PerceivableIndividual.ImportVisualMaskFromTag | Source/USemLog/Private/Data/SLPerceivableIndividual.cpp:226-241 | the mask and result are ImportedValue's: the field changes only when empty or overwriting, and the result is true when the value stayed the same; when it runs, a changed mask clears the calibrated mask, a non-empty value colours an existing dynamic material, and a mask that is on is re-applied to every slot of a loaded individual; the mask flag, the originals and the flags never change |
| Perceivable.PerceivableIndividual.ImportCalibratedVisualMaskFromTag | Source/USemLog/Private/Data/SLPerceivableIndividual.cpp:244-259 | the same rule for the calibrated mask |
| Perceivable.ImportReportsUnchanged | Source/USemLog/Classes/Data/SLPerceivableIndividual.h:66-70 | the import helpers report true exactly when they ran and the value is unchanged, so a newly written value reports false, the opposite of their documented meaning |
| Perceivable.PerceivableIndividual.ImportFromTag | Source/USemLog/Private/Data/SLPerceivableIndividual.cpp:127-134 | the base import, then the mask, then the calibrated mask (which a changed mask has cleared first); the result is the OR of the three; the material colour and the slots change as the mask import says, and the flags, the originals, the mask flag and the tag never change |
| Perceivable.AddKVPair | Source/USemLog/Private/Data/SLPerceivableIndividual.cpp:117-121 | a pair is written iff the key is absent or overwriting, and the result says whether it was |
| Perceivable.ExportedTag | Source/USemLog/Private/Data/SLPerceivableIndividual.cpp:111-124 | only non-empty mask fields are written, each only when absent or overwriting; other keys are untouched by the mask writes (the base export is a given result whose own writes are not modelled); the result is the OR of the base export and the two writes |
| Perceivable.PerceivableIndividual.ExportToTag | Source/USemLog/Private/Data/SLPerceivableIndividual.cpp:111-124 | the new tag and the result are ExportedTag's |
| Perceivable.ExportThenImportMask | Source/USemLog/Private/Data/SLPerceivableIndividual.cpp:111-134 | exporting a non-empty mask with overwrite and importing it into an empty field recovers the mask (reported false, as a changed value is); importing it with overwrite into any field recovers it too |
| OwlEvents.WithPairEventShape | Source/USemLog/Private/Events/SLSlideEvent.cpp:38-50 | adding a pair event appends exactly one individual, registers both times and both objects without repeating any, and keeps everything registered before |
| OwlEvents.PairContextRoundTrip | Source/USemLog/Private/Events/SLSlideEvent.cpp:53-56 | a context is the kind, " - ", and a decimal that reads back as the pair id printed by `%lld` |
| OwlEvents.PairContextInjective | Source/USemLog/Private/Events/SLPouringEvent.cpp:59-62 | contexts of the same kind differ for different pair ids |
| OwlEvents.PairTooltipRoundTrip | Source/USemLog/Private/Events/SLSlideEvent.cpp:59-63 | the tooltip's quoted fields read back in order: O1, its class and id, O2, its class and id, and the event id |
| SlideEvents.NewSlideEvent | Source/USemLog/Private/Events/SLSlideEvent.cpp:9-13 | every argument is stored under its own name, with the episode id empty |
| SlideEvents.NewSlideEventNoEnd | Source/USemLog/Private/Events/SLSlideEvent.cpp:16-20 | individual and manipulator are stored by name despite the reversed parameter order, and the end time stays at the base default |
| SlideEvents.ConstructorsAgree | Source/USemLog/Private/Events/SLSlideEvent.cpp:9-20 | the two constructors differ only in the end time |
| SlideEvents.ToOwlNodeReadsBack | Source/USemLog/Private/Events/SLSlideEvent.cpp:24-35 | the event individual is in "log", named by the id, of class SlidingSituation, with start, end, performedBy manipulator, objectActedOn individual and inEpisode, in that order |
| SlideEvents.ReadSlideNodeExact | Source/USemLog/Private/Events/SLSlideEvent.cpp:27-33 | a node that reads as the event is exactly the event's individual, with no other child |
| SlideEvents.AddToOwlDoc | Source/USemLog/Private/Events/SLSlideEvent.cpp:38-50 | the document is WithPairEvent of the old one: start and end timepoints, manipulator then individual as objects, then the one individual |
| SlideEvents.ContextReadsBack | Source/USemLog/Private/Events/SLSlideEvent.cpp:53-56 | the context is "Slide - " followed by the pair id as `%lld` prints it |
| SlideEvents.TooltipReadsBack | Source/USemLog/Private/Events/SLSlideEvent.cpp:59-63 | the tooltip names the manipulator as O1 and the individual as O2, then the event id |
| SlideEvents.ToStringLabelsSwapped | Source/USemLog/Private/Events/SLSlideEvent.cpp:66-70 | as written, the manipulator's info is printed under "Individual:" and the individual's under "Manipulator:", then the pair id |
| SlideEvents.ObjectsParticipatedReadsBack | Source/USemLog/Private/Events/SLSlideEvent.cpp:76-80 | the objects string is "[class:label,class:label]" with the individual first, and reads back when no part holds a separator |
| SlideEvents.RESTCallToKnowRob | Source/USemLog/Private/Events/SLSlideEvent.cpp:72-91 | exactly one sub-action request is sent: "soma:'Slide'", "soma:'Sliding'", the objects string, empty additional info, the start and end times; the answer is always "Succeed!" |
| PouringEvents.NewPouringEvent | Source/USemLog/Private/Events/SLPouringEvent.cpp:9-17 | every argument is stored under its own name, with the episode id empty |
| PouringEvents.NewPouringEventNoEnd | Source/USemLog/Private/Events/SLPouringEvent.cpp:20-28 | same order of participants, with the end time at the base default |
| PouringEvents.ConstructorsAgree | Source/USemLog/Private/Events/SLPouringEvent.cpp:9-28 | the two constructors differ only in the end time |
| PouringEvents.ToOwlNodeReadsBack | Source/USemLog/Private/Events/SLPouringEvent.cpp:32-41 | the event individual is in "log", named by the id, of class PouringSituation, with start, end and inEpisode |
| PouringEvents.ReadPouringNodeExact | Source/USemLog/Private/Events/SLPouringEvent.cpp:35-40 | a node that reads as the event is exactly its individual: three children, no participant property |
| PouringEvents.AddToOwlDoc | Source/USemLog/Private/Events/SLPouringEvent.cpp:44-56 | the document is WithPairEvent of the old one: timepoints, Individual1 then Individual2, then the one individual |
| PouringEvents.ContextReadsBack | Source/USemLog/Private/Events/SLPouringEvent.cpp:59-62 | the context is "Pouring - " followed by the pair id as `%lld` prints it |
| PouringEvents.TooltipReadsBack | Source/USemLog/Private/Events/SLPouringEvent.cpp:65-69 | the tooltip names Individual1 as O1 and Individual2 as O2, then the event id |
| PouringEvents.ToStringReadsBack | Source/USemLog/Private/Events/SLPouringEvent.cpp:72-76 | the info line lists Individual1, then Individual2, then the pair id, which reads back |
| WorldState.WorldStateWriter.FilterLoop | Source/USemLog/Private/WorldState/SLWorldStateWriterMongo.cpp:139-174 | one pass over a pool, entry by entry, yields FilterPool's kept pool and emitted documents |
| WorldState.FilterPoolKeepsLive | Source/USemLog/Private/WorldState/SLWorldStateWriterMongo.cpp:142-173 | the pool keeps exactly its live entries in order, so stale ones are removed and live ones never are; a moved entry stores its current pose and an unmoved one keeps its stored pose |
| WorldState.FilterPoolEmitsMoved | Source/USemLog/Private/WorldState/SLWorldStateWriterMongo.cpp:142-167 | exactly the live entries that moved are emitted, in pool order, each as its entity document; a stale entry never is |
| WorldState.Refreshed | Source/USemLog/Private/WorldState/SLWorldStateWriterMongo.cpp:152-153 | a moved entry's stored pose becomes its current pose; an unmoved entry is unchanged |
| WorldState.RotationChangeEmits | Source/USemLog/Private/WorldState/SLWorldStateWriterMongo.cpp:148-149 | any nonzero angular distance emits the entity, whatever its displacement |
| WorldState.RotationStepUnused | Source/USemLog/Private/WorldState/SLWorldStateWriterMongo.cpp:17-20 | the rotation step given to the writer never affects a pass |
| WorldState.SecondPassQuiet | Source/USemLog/Private/WorldState/SLWorldStateWriterMongo.cpp:148-153 | a second pass over an unchanged world emits nothing, when a rotation's angular distance to itself is zero |
| WorldState.EntityDocLayout | Source/USemLog/Private/WorldState/SLWorldStateWriterMongo.cpp:295-316 | an entity document holds id, class, loc {x, y, z} and rot {x, y, z, w}, and for a skeletal actor a bones array with one entry per bone reading, empty without a map asset or mesh |
| WorldState.WorldStateWriter.AddNonSkeletalActors | Source/USemLog/Private/WorldState/SLWorldStateWriterMongo.cpp:135-175 | the non-skeletal actor pool becomes FilterPool's kept pool and its emitted documents are appended to the output |
| WorldState.WorldStateWriter.AddSkeletalActors | Source/USemLog/Private/WorldState/SLWorldStateWriterMongo.cpp:178-249 | the skeletal actor pool becomes FilterPool's kept pool and its emitted documents, bones included, are appended to the output |
| WorldState.WorldStateWriter.AddNonSkeletalComponents | Source/USemLog/Private/WorldState/SLWorldStateWriterMongo.cpp:252-292 | the component pool becomes FilterPool's kept pool and its emitted documents are appended to the output |
| WorldState.WorldStateWriter.CollectEntities | Source/USemLog/Private/WorldState/SLWorldStateWriterMongo.cpp:40-44 | the non-skeletal actors, the skeletal actors and the components are filtered in that order, each pool becoming its FilterPool kept pool, and the emitted documents are concatenated in the same order |
| WorldState.WorldStateWriter.Write | Source/USemLog/Private/WorldState/SLWorldStateWriterMongo.cpp:31-62 | the three pools are filtered in order, and one record (timestamp, then the entities of the non-skeletal actors, skeletal actors and components) is inserted iff something was emitted |

## Left out

- The REST clients (KnowRob and speech) are not part of this model. Each request is a recorded call: a ghost log in the logger manager, and the `KnowRobRequests` list for the slide event. Responses, HTTP status and the episode and action IRIs are not modelled.
- Engine iteration is not modelled. The world is a given sequence of `WorldActor` values, each holding the actor's individual component, if it has one, and whether it is valid and not pending kill (`alive`).
- Components and individuals are compared by value (handle, owner, root individual, children and ids), not by pointer. Their ids and children are read once, when the component is cached; a component whose individuals changed after caching is not recognised by `RemoveFromCache`. Whether a component is valid and not pending kill belongs to the world iteration, not to the component value.
- The id maps are keyed by `Key(id)`, the id with ASCII upper-case letters folded to lower case, standing for the case-insensitive comparison and hash of FString map keys. Case folding of non-ASCII letters is not modelled, and the key text the engine keeps for an entry is not observable through the lookups, so it is not modelled either.
- The individual manager's delegate binding and unbinding are not modelled. `Connect` binds exactly when something is cached. `InitReset` unbinds without touching the connected flag, which the model keeps.
- The `Init` and `IsLoaded` calls on individuals inside `AddToCache` and `LoadImpl` are given values. Their failures are only logged.
- Broadcasting, logging, timers, input binding, semantic-map and task writing, and the world-time reset of the logger manager are not modelled.
- Sub-loggers are reduced to flags: enabled, set, running independently, Init ok, Start ok. Their own state is not part of this model. `SetWorldStateLogger` and `SetSymbolicLogger` return true on every path (a failed spawn is not reported), so the set flag is always true in the source; its false case is unreachable there.
- The perceivable individual's base class is not part of this model. Its `IsInit` and `IsLoaded` state is two flags. What its `Init` and `Load` return is one given boolean each, the same on every call and with or without reset. A successful call leaves the base initialised or loaded, a failed one leaves it not. Its tag import and export are given booleans.
- Asset loading and dynamic-material creation in the constructor and `InitImpl` are reduced to whether the mask asset exists. Creating the dynamic material is assumed to succeed.
- Dynamic-material instances are not told apart: every mask slot holds the one value `MaskMaterial`. In the engine each `InitImpl` creates a new instance, so slots written before a re-initialisation, and originals recaptured while the mask is on, keep the earlier instance and its colour; the model does not capture that.
- `FSLTagIO` is not part of this model. The tag is a key/value map. Reading a missing key gives "". `AddKVPair` writes when the key is absent or when overwriting.
- BeginDestroy's call to `ApplyOriginalMaterials` and `PostInitProperties` are not modelled.
- The OWL statics that build properties and the experiment document's registration functions are not part of this model. Registration is modelled as adding a value once.
- Times are reals. Float precision is not modelled. An event built without an end time has an absent end time standing for the base default, whose value is not part of this model.
- Actor labels and info strings are given values of each individual.
- `%lld` of the `uint64` pair id is modelled as the signed 64-bit reinterpretation printed in decimal.
- The world-state writer's Mongo connection, bson library, exception handling and `FSLMappings::RemoveItem` are not modelled. The use of the iterator after `RemoveCurrent` is not modelled either: the pool removal is. The ROS frame conversion and the angular distance are given functions. Bone poses are given readings, one per bone-to-class map entry.
- The pools are sequences the methods reassign, not arrays edited in place. Removal keeps the order of the remaining entries.

## Findings

| source | as written | input that shows it | evidently intended | confidence | as-written member | corrected member |
|---|---|---|---|---|---|---|
| Source/USemLog/Private/Individuals/SLIndividualManager.cpp:396-400 | `RemoveFromCache` sets its result when `IndividualComponents.Remove(IC) != INDEX_NONE`. `TArray::Remove` returns how many elements it removed (0 or more), never `INDEX_NONE` (-1). | a component that was never cached: Remove returns 0, and 0 != -1 reports a removal | true iff the component was cached | not executed | Individuals.RemovedAsWrittenForUncached | Individuals.IndividualManager.RemoveFromCache |

The sliding-event `ToString` labels and the inverted results of the import helpers are reproduced as written. They are not counted as findings.
