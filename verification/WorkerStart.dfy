/** `dsp_worker_start`: from an accepted request to a running worker. */
module WorkerStart {
  import opened Admission
  import opened ClientSetup
  import opened ComplexNumbers
  import opened LowPassDesign
  import opened WorkerSpec
  import BlockQueue
  import DspWorker
  import XlatingCf32

  /** Creates filter, queue and worker. */
  method Launch(build: XlatingCf32.Build, c: ServerConfig, m: MathLib, taps: seq<real>, z: Complex, decimation: nat,
                destination: Destination, baseAddress: nat)
    returns (worker: DspWorker.Worker)
    requires ValidSetup(Setup(c.sdr, taps, z, decimation, c.queueSize, destination))
    requires baseAddress % XlatingCf32.ALIGNMENT == 0
    requires forall re, im :: re * re + im * im == 1.0 ==> m.hypot(re, im) == 1.0
    ensures worker.Valid() && worker.setup == Setup(c.sdr, taps, z, decimation, c.queueSize, destination)
    ensures worker.Is(Initial(worker.setup)) && worker.queue.bufferSize == c.bufferSize
    ensures fresh(worker.Memory())
  {
    hide IsUnit, XlatingCf32.Filter.Built, BlockQueue.Queue.Valid;
    var code, filter := XlatingCf32.Create(decimation, taps, z, c.bufferSize, baseAddress, m.hypot);
    var queue := new BlockQueue.Queue(c.bufferSize, c.queueSize);
    ghost var setup := Setup(c.sdr, taps, z, decimation, c.queueSize, destination);
    worker := new DspWorker.Worker(setup, c.sdr, destination, build, queue, filter);
  }

  /**
   An accepted request gets a worker unless its rate is below 2 or below the cutoff rate, or the
   server has no band. The worker starts with silence as history and an empty queue. Its filter has
   the low-pass taps for half the requested rate, the exact decimation and, unless the request's
   edges wrapped around, the exact offset of the request.
   */
  method Start(build: XlatingCf32.Build, r: Request, c: ServerConfig, m: MathLib, baseAddress: nat)
    returns (code: int, worker: DspWorker.Worker?)
    requires Accepted(r, c.bandRate) && c.lpfCutoffRate > 0 && c.queueSize >= 2 && Sound(m, r, c)
    requires baseAddress % XlatingCf32.ALIGNMENT == 0
    ensures code == 0 <==> c.bandRate > 0 && r.samplingRate >= 2 && r.samplingRate as nat >= c.lpfCutoffRate
    ensures worker == null <==> code != 0
    ensures worker != null ==>
              && worker.Valid() && worker.Is(Initial(worker.setup)) && Admitted(r, worker.setup, c, m)
              && worker.queue.bufferSize == c.bufferSize && fresh(worker.Memory())
  {
    DesignChecksOnAccepted(r, c.bandRate, c.lpfCutoffRate);
    if TransitionWidth(r, c.lpfCutoffRate) > 0 {
      TheseNumbers(r, c);
    }
    var taps;
    code, taps := CreateLowPassFilter(1.0, c.bandRate as nat, Cutoff(r), TransitionWidth(r, c.lpfCutoffRate),
                                      m.ratio, m.cosine);
    if code != 0 {
      return code, null;
    }
    SetupFits(r, c, m, taps[..]);
    worker := Launch(build, c, m, taps[..], m.rotation(Offset(r), c.bandRate as nat), Decimation(r, c.bandRate),
                     DestinationOf(r), baseAddress);
  }
}
