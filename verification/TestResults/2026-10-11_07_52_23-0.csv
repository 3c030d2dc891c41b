TestResult.DisplayName,TestResult.Outcome,TestResult.Duration,TestResult.ResourceCount,RandomSeed
Search.VisibleConcat (correctness),Failed,00:00:01.4839928,4051654,0
