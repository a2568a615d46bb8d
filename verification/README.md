# Registration queue model

This project models the multi-counter student registration queue of
`RegistrationSimulation_222510667.py` in Dafny. It covers one scenario run
(`run_scenario` and `student_process`) with its three stages:

1. **Arrival normalisation.** The earliest arrival time becomes the base.
   Each student's simulated arrival is its offset in seconds from that base
   (module `Normalisation`, `normalise.dfy`).
2. **The discrete-event run.** One process is registered per row, in row
   order, on a fresh environment with `num_counters` counters. Each process:
   - waits until its arrival offset;
   - asks for a counter;
   - once granted, appends one record stamped with the clock and the time it
     waited;
   - holds the counter for its service time;
   - on leaving, hands the counter to the longest-waiting student, or frees
     it when nobody waits.

   The environment is the class `Engine.Simulation` (`simulation.dfy`). Its
   fields are updated in place:
   - the clock;
   - the pending resumptions, ordered by time and then by the order they were
     scheduled (`EventQueue`);
   - the counter pool: the held count and a FIFO wait list;
   - each process's phase;
   - the shared record list.

   Every method is proved to take one step of the value-level machine in
   `EngineState`. The invariant `EngineState.Inv` holds after every step
   (`EngineProofs`, `EngineLifecycle`). It says that:
   - the queue is ordered;
   - requests are made in request order;
   - the processes in service are exactly the counter holders;
   - the records emitted so far are the reference schedule of the requests
     granted so far.
3. **Aggregation.** This covers makespan, throughput, mean and maximum wait,
   and utilisation (`Statistics`).

`Reference` is an independent closed-form description of the same queue:
- Requests are taken in request order.
- Each request starts at the later of its arrival and the earliest time a
  counter is free.

`Requests` defines request order: by arrival offset, with ties broken by row
index. The input rows are never sorted. The main theorem is that
`Engine.Simulation.Run` ends with exactly the reference schedule of all the
requests. Every property of the reference (FIFO starts, waits only when all
counters are busy, the one-counter recurrence) therefore holds of the
records the engine emits.

`Scenarios` ties the stages together: `Scenarios.RunScenario` runs the
engine, and `Scenarios.Scenario` is the function it is proved equal to.
`MoreCounters` (`more_counters.dfy`) compares two runs on the same rows.
With more counters, no student starts later or waits longer. Neither the
average nor the maximum wait rises, and throughput does not fall.

`WorkedExamples` works through the opening rush by hand:
- two students arrive at the opening time and a third 100 seconds later;
- each needs 500 seconds at a counter.

The results:

| counters | starts | waits | max wait | average wait | throughput / h | utilisation % |
|---|---|---|---|---|---|---|
| 1 | 0, 500, 1000 | 0, 500, 900 | 900 | 1400/3 | 10.8 | 150 |
| 2 | 0, 0, 500 | 0, 0, 400 | 400 | 400/3 | 21.6 | 150 |

With two counters the third student starts at 500, not at its arrival at
100. Both counters are busy until 500, and counters are granted first come,
first served. `WorkedExamples.TwoCounterExample` proves this.

The makespan is the latest service *start*, not the latest completion, so
both runs report 150% utilisation. The model keeps the code's definition.

All times are whole seconds, as `int`: arrivals have minute granularity and
service times are integers. Ratios are exact `real`s.

## Model

| member | source | states |
|---|---|---|
| Normalisation.Normalise | RegistrationSimulation_222510667.py:84-89 | One student per row, in row order. Each keeps its row's id, arrival time and service time, and its arrival offset is never negative. |
| Normalisation.Earliest | RegistrationSimulation_222510667.py:86 | The base is no later than any row's arrival time and equals one of them: it is the minimum. |
| Normalisation.OffsetsFromZero | RegistrationSimulation_222510667.py:86-89 | Some student (the earliest) has offset 0. |
| Normalisation.NormaliseKeeps | RegistrationSimulation_222510667.py:86-89 | The difference of two offsets equals the difference of the two arrival times. |
| Normalisation.ShiftInvariant | RegistrationSimulation_222510667.py:86-89 | Moving every arrival by the same amount moves the base by that amount and leaves every offset unchanged. |
| Normalisation.EarliestShifted | RegistrationSimulation_222510667.py:86 | The minimum of shifted arrival times is the shifted minimum. |
| Requests.RequestOrder | RegistrationSimulation_222510667.py:61-65 | Lists one valid row index per row. `Requests.RequestOrderCharacterised` states the full order. |
| Requests.RequestOrderCharacterised | RegistrationSimulation_222510667.py:61-65 | The request order is a permutation of the row indices, sorted by arrival offset with ties broken by row index. |
| Requests.RequestOrderSnoc | RegistrationSimulation_222510667.py:95-96 | Registering one more process places its row among the earlier ones by its request key. |
| Requests.InOrderRows | RegistrationSimulation_222510667.py:95-96 | When the rows already come in arrival order, requests are made in row order. |
| Requests.SortFirstStable | RegistrationSimulation_222510667.py:95-96 | The order of the first m rows depends only on those rows, so rows registered later do not change it. |
| EventQueue.Insert | RegistrationSimulation_222510667.py:61 | Scheduling a resumption lengthens the pending list by exactly one. `EventQueue.InsertElems` and `EventQueue.InsertOrdered` state its contents and order. |
| EventQueue.InsertOrdered | RegistrationSimulation_222510667.py:61 | Scheduling a resumption with a fresh sequence number keeps the pending list ordered by time, then by scheduling order. |
| EventQueue.InsertElems | RegistrationSimulation_222510667.py:77 | Scheduling adds exactly the new resumption and loses none. |
| EventQueue.InsertLeave | RegistrationSimulation_222510667.py:77 | Scheduling a service end adds one holder and its leave time, and leaves the pending arrivals as they were. |
| Reference.ArgMin | RegistrationSimulation_222510667.py:64-65 | The chosen counter is one that is free earliest. |
| Reference.Assign | RegistrationSimulation_222510667.py:64-77 | Every request is placed on one of the k counters and starts no earlier than its arrival offset. |
| Reference.Schedule | RegistrationSimulation_222510667.py:64-75 | One record per request, in request order. `Reference.ScheduleStarts` and `Reference.ScheduleRecords` state each record's contents. |
| Reference.ScheduleRecords | RegistrationSimulation_222510667.py:67-75 | Record j carries request j's id, arrival time and service time. Its wait is its service start minus its arrival offset, and is never negative. |
| Reference.ScheduleStarts | RegistrationSimulation_222510667.py:69-75 | Record j is request j stamped with the start the placement gives it. |
| Reference.StartAt | RegistrationSimulation_222510667.py:64-65 | A request starts at the later of its arrival and the earliest time a counter is free after the requests before it. |
| Reference.AssignPrefix | RegistrationSimulation_222510667.py:64-77 | Placing later requests never moves the start or counter of an earlier one. |
| Reference.EarliestFreeGrows | RegistrationSimulation_222510667.py:64-77 | The earliest free time never goes backwards as requests are placed. |
| Reference.StartsNonDecreasing | RegistrationSimulation_222510667.py:64-65 | Taken in arrival order, service starts never decrease, so counters are granted first come, first served. |
| Reference.WaitsOnlyWhenAllBusy | RegistrationSimulation_222510667.py:64-67 | A student waits if and only if, at its arrival, every counter is still busy with earlier students. |
| Reference.FirstStartsOnArrival | RegistrationSimulation_222510667.py:61-65 | With any number of counters, the first request (arriving no earlier than the opening) starts on arrival. |
| Reference.SingleCounter | RegistrationSimulation_222510667.py:64-65 | With one counter, every request after the first starts at max(its arrival, previous start + previous service). |
| Reference.PlaceOne | RegistrationSimulation_222510667.py:64-77 | Placing one more request on the earliest-free counter appends its record and moves that counter's free time to the end of the new service. |
| EngineState.Register | RegistrationSimulation_222510667.py:95-96 | Registering adds the student with an unstarted process and schedules exactly one arrival wake-up at its offset. The clock, the pool and the records are untouched. |
| EngineState.Grant | RegistrationSimulation_222510667.py:67-77 | A granted process is in service, and exactly one record is appended. The record carries its id, the clock as service start and the time since its request as wait. Its service end is scheduled at the clock plus its service time. The clock and the pool are untouched. |
| EngineState.ArriveStep | RegistrationSimulation_222510667.py:61-65 | The clock moves to the arrival time. If a counter is free, the student is served at once with wait 0 and one more counter is held. Otherwise it joins the end of the wait list, waiting since its arrival, and no record is added. Earlier records stay. |
| EngineState.LeaveStep | RegistrationSimulation_222510667.py:64-77 | The clock moves to the service end. If someone waits, the longest-waiting student gets the counter and its record: start is the clock, wait is the time since its request. Otherwise the process is done and its counter is freed. Earlier records stay. |
| EngineLifecycle.StartKeeps | RegistrationSimulation_222510667.py:91-93 | A fresh environment, pool and record list satisfy the invariant, and no process has started. |
| EngineLifecycle.RegisterKeeps | RegistrationSimulation_222510667.py:95-96 | Registering a process before the run keeps the invariant and adds exactly that student. |
| EngineProofs.ArriveKeeps | RegistrationSimulation_222510667.py:61-75 | An arrival wake-up keeps the invariant, keeps the students and capacity, and never moves the clock back. It strictly decreases the steps left. |
| EngineProofs.LeaveKeeps | RegistrationSimulation_222510667.py:77 | A service end keeps the invariant, keeps the students and capacity, and never moves the clock back. It strictly decreases the steps left. |
| EngineLifecycle.Finished | RegistrationSimulation_222510667.py:98 | When nothing is pending, every process is done, no counter is held and nobody waits. The records are the reference schedule of all requests in request order. |
| EngineLifecycle.AtMostCapacityServing | RegistrationSimulation_222510667.py:64-77 | At every step the number of students in service equals the held count, which is at most the number of counters. |
| Engine.Simulation.constructor | RegistrationSimulation_222510667.py:91-93 | A fresh environment at time 0 with `num_counters` free counters, nothing pending and no records. |
| Engine.Simulation.Process | RegistrationSimulation_222510667.py:95-96 | Registers a process. Its arrival wake-up is scheduled at the student's offset, and the invariant is kept. |
| Engine.Simulation.Serve | RegistrationSimulation_222510667.py:67-77 | A granted process appends its record, stamped with the clock and the wait since its request, and schedules its leaving after its service time. |
| Engine.Simulation.ArriveNext | RegistrationSimulation_222510667.py:61-65 | The arrival at the head advances the clock. The student is granted a counter at once if one is free, and otherwise joins the end of the wait list. |
| Engine.Simulation.LeaveNext | RegistrationSimulation_222510667.py:64-77 | The service end at the head advances the clock and ends the process. Its counter goes to the longest-waiting student, or is freed. |
| Engine.Simulation.Step | RegistrationSimulation_222510667.py:98 | Resuming the process due first keeps the invariant, never moves the clock back and makes progress. |
| Engine.Simulation.Run | RegistrationSimulation_222510667.py:98 | Runs until no event remains. Every process is done, no counter is held, and the records are the reference schedule of all requests in request order. |
| Statistics.Makespan | RegistrationSimulation_222510667.py:102 | The latest service start: no record starts later, and some record starts then. |
| Statistics.MaxWait | RegistrationSimulation_222510667.py:107 | The maximum wait: no record waits longer, and some record waits exactly that long. |
| Statistics.Summarize | RegistrationSimulation_222510667.py:100-120 | An error exactly when there are no records or the makespan is 0. Otherwise: the number served is the record count; the details are the records; throughput, mean wait, maximum wait and utilisation are computed from the makespan and the wait and service totals. |
| Statistics.Throughput | RegistrationSimulation_222510667.py:105 | Throughput times the makespan equals 3600 times the number served. |
| Statistics.Utilization | RegistrationSimulation_222510667.py:109-110 | Utilisation times (counters x makespan) equals 100 times the total service time. |
| Statistics.Mean | RegistrationSimulation_222510667.py:106 | The average wait times the number served equals the total wait. |
| Statistics.AverageWaitBounds | RegistrationSimulation_222510667.py:106-107 | With no negative wait, the average wait lies between 0 and the maximum wait. |
| Statistics.MakespanIsLastStart | RegistrationSimulation_222510667.py:102 | When service starts never decrease, the makespan is the start of the last record. |
| Scenarios.Scenario | RegistrationSimulation_222510667.py:82-120 | Fails with an invalid capacity exactly when there are no counters, and with no records when there are no rows. A summary reports the counters used and one served student per row. |
| Scenarios.RunScenario | RegistrationSimulation_222510667.py:82-120 | Running the engine on the normalised rows and summarising its records gives the scenario's result. |
| Scenarios.Simulate | RegistrationSimulation_222510667.py:91-98 | Registering one process per student and running to the end yields the reference schedule of the requests in request order. |
| Scenarios.Populate | RegistrationSimulation_222510667.py:91-96 | A fresh engine with one registered, unstarted process per student, in row order. |
| Scenarios.EachRowServedOnce | RegistrationSimulation_222510667.py:64-75 | Record j belongs to row ord[j], where ord lists every row exactly once. Each row gets exactly one record, carrying its id, arrival time and service time. |
| Scenarios.IdsOnce | RegistrationSimulation_222510667.py:95-103 | When the rows have distinct ids, every id appears in exactly one record. |
| Scenarios.RecordsByStart | RegistrationSimulation_222510667.py:69-73 | Records come out in non-decreasing service-start order, and no wait is negative. |
| Scenarios.RequestsInArrivalOrder | RegistrationSimulation_222510667.py:61-65 | Counters are requested in order of arrival offset. |
| Scenarios.MakespanOfRun | RegistrationSimulation_222510667.py:102 | The makespan of a run is the service start of its last record. |
| Scenarios.RunWaitBounds | RegistrationSimulation_222510667.py:106-107 | A run's average wait lies between 0 and its maximum wait. |
| MoreCounters.PlaceNoWorse | RegistrationSimulation_222510667.py:64-77 | Granting the same request on two counter pools, where the second has at least as many counters free at every time, keeps that so. The request starts no later in the second. |
| MoreCounters.MoreCountersPlan | RegistrationSimulation_222510667.py:64-77 | With at least as many counters, every request starts no later, and at every time at least as many counters are free. |
| MoreCounters.MoreCountersRecords | RegistrationSimulation_222510667.py:64-75 | With at least as many counters, every record starts no later and waits no longer. |
| MoreCounters.ThroughputNoLess | RegistrationSimulation_222510667.py:102-105 | A shorter makespan gives no lower throughput for the same number served. |
| MoreCounters.SummaryNoWorse | RegistrationSimulation_222510667.py:100-107 | When record by record the starts are no later and the waits no longer, the maximum and average waits do not rise and throughput does not fall. |
| MoreCounters.MoreCountersNoWorse | RegistrationSimulation_222510667.py:82-120 | On the same rows, a run with more counters reports no higher maximum or average wait and no lower throughput. |
| WorkedExamples.OpeningRequests | RegistrationSimulation_222510667.py:84-89 | For the opening rush, the offsets are 0, 0 and 100, and requests are made in row order. |
| WorkedExamples.OneCounterExample | RegistrationSimulation_222510667.py:82-120 | One counter: starts 0, 500, 1000; waits 0, 500, 900; maximum wait 900; average 1400/3; 10.8 per hour; 150% utilisation. |
| WorkedExamples.TwoCounterExample | RegistrationSimulation_222510667.py:82-120 | Two counters: starts 0, 0, 500; waits 0, 0, 400; maximum wait 400; average 400/3; 21.6 per hour; 150% utilisation. |

## Left out

- Reading the CSV, parsing dates, dropping unparseable rows, generating ids and drawing random service times (lines 22-54): this is I/O and randomness. The model takes the rows (id, arrival time in seconds, service time) as input.
- `run_experiments`, the CSV export, printing and plotting (lines 125-215): this is reporting and I/O.
- Floating point: times are whole seconds as `int` and ratios are exact `real`s. The `int(wait)` and `int(service_time_sec)` truncations are the identity on whole seconds.
- Statistics.Summarize: when every service starts at 0, the source divides by a zero makespan and reports infinite or undefined ratios. The model returns the error `ZeroMakespan` instead, so the whole summary is dropped: the number served, both waits and the details as well as the ratios. This covers every run with a single row, since its one student starts at offset 0, for example `Scenario([Row(a, t, s)], 1) == Err(NoStatistics(ZeroMakespan))`.
- Statistics.Summarize: with no records, the source raises a missing-column error. The model returns `NoRecords` instead.
- Scenarios.Scenario: with zero counters, the source's resource raises an error. The model returns `InvalidCapacity` instead.
- Engine.Simulation.Process: requires a non-negative arrival offset. A negative delay would raise an error in the simulation library, and normalised offsets are never negative (`Normalisation.OffsetsFromZero`).
- The simulation library's internals are not part of this model: its event heap, generator mechanics, and zero-delay request, grant and release events. The model folds those events into the step that causes them. A counter is granted, and the record appended, at the moment it is requested or released. Arrival wake-ups are numbered before any later resumption, so at equal times they are resumed first, and grants happen in request order. The observable clock, record order and stamps are therefore the same.
- pandas mechanics (`copy`, `reset_index`, `iterrows`, `mean`, `max`, `sum`) become plain sequence operations over the rows and records.
