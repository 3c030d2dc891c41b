TestResult.DisplayName,TestResult.Outcome,TestResult.Duration,TestResult.ResourceCount,RandomSeed
Search.VisibleConcat (correctness),Failed,00:00:01.8756241,8051654,0
