/** The slave health test measured against the two places where the agent
    itself decides whether a slave lags: the readiness probe of the kernel
    and the promotion guard of the MariaDB module. */
module LagRules {
  import opened Wrappers
  import opened Common
  import Kernel
  import MariadbModule

  /** The corrected slave health test agrees with the two lag rules of the
      agent: a healthy slave keeps the service ready and does not block a
      promotion, and for a running slave the converse holds too.  A stopped
      enabled slave is unhealthy, yet neither rule looks at `runningOK`. */
  lemma HealthyAgreesWithLagRules(m: MasterStatus, s: SlaveStatus)
    ensures s.IsHealthy() ==> Kernel.ServiceReady(Success((m, s))) && !MariadbModule.Lagging(s)
    ensures s.runningOK ==> (s.IsHealthy() <==> Kernel.ServiceReady(Success((m, s))))
    ensures s.runningOK ==> (s.IsHealthy() <==> !MariadbModule.Lagging(s))
    ensures s.enable && !s.runningOK ==> !s.IsHealthy() && !MariadbModule.Lagging(s)
  {
  }
}
